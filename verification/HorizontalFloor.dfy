/** Range maxima over compressed coordinates, in a tree whose updates are never pushed down.

The two arrays are proved to represent one value per unit cell between
neighbouring coordinates. Hence a query returns the greatest value of all
earlier updates whose span overlaps the query's. */
module HorizontalFloor {

  /** Floors start at minus infinity. */
  datatype Height = Low | At(y: real)

  predicate AtMost(a: Height, b: Height) {
    a.Low? || (b.At? && a.y <= b.y)
  }

  function Max(a: Height, b: Height): Height {
    if AtMost(a, b) then b else a
  }

  function Lower(a: nat, b: nat): nat {
    if a <= b then a else b
  }

  function Upper(a: nat, b: nat): nat {
    if a <= b then b else a
  }

  // ---------------------------------------------------------------------------
  // The tree as values
  // ---------------------------------------------------------------------------

  /** Node `j` lies in the subtree of node `i`. */
  predicate Under(i: nat, j: nat)
    decreases j
  {
    j == i || (j > i && Under(i, (j - 1) / 2))
  }

  lemma {:induction false} SiblingsApart(i: nat, j: nat)
    ensures !(Under(2 * i + 1, j) && Under(2 * i + 2, j))
    decreases j
  {
    if j > 2 * i + 2 {
      SiblingsApart(i, (j - 1) / 2);
    } else if j == 2 * i + 2 {
      assert (j - 1) / 2 == i;
    }
  }

  lemma {:induction false} ChildUnder(i: nat, c: nat, j: nat)
    requires (c == 2 * i + 1 || c == 2 * i + 2) && Under(c, j)
    ensures Under(i, j) && j != i
    decreases j
  {
    if j != c {
      ChildUnder(i, c, (j - 1) / 2);
    } else {
      assert (c - 1) / 2 == i;
    }
  }

  /** What one cell between neighbouring coordinates has been raised to, below node `i` that covers cells `s` to `t`. */
  function Cell(lazy: seq<Height>, i: nat, s: nat, t: nat, c: nat): Height
    decreases t - s
  {
    var here := if i < |lazy| then lazy[i] else Low;
    if t <= s + 1 then here
    else
      var middle := (s + t) / 2;
      Max(here, if c < middle then Cell(lazy, 2 * i + 1, s, middle, c) else Cell(lazy, 2 * i + 2, middle, t, c))
  }

  /** Each maximum agrees with what its own node and its children say. */
  predicate Sane(maximum: seq<Height>, lazy: seq<Height>, i: nat, s: nat, t: nat)
    decreases t - s
  {
    && i < |maximum| && i < |lazy|
    && if t <= s + 1 then maximum[i] == lazy[i]
       else
         var middle := (s + t) / 2;
         && Sane(maximum, lazy, 2 * i + 1, s, middle) && Sane(maximum, lazy, 2 * i + 2, middle, t)
         && maximum[i] == Max(lazy[i], Max(maximum[2 * i + 1], maximum[2 * i + 2]))
  }

  /** `h` is the greatest value of the cells `lo` to `hi` below node `i`. */
  ghost predicate IsPeak(lazy: seq<Height>, i: nat, s: nat, t: nat, lo: nat, hi: nat, h: Height) {
    && (forall c :: lo <= c < hi ==> AtMost(Cell(lazy, i, s, t, c), h))
    && (exists c :: lo <= c < hi && Cell(lazy, i, s, t, c) == h)
  }

  lemma {:induction false} MaximumIsPeak(maximum: seq<Height>, lazy: seq<Height>, i: nat, s: nat, t: nat)
    requires Sane(maximum, lazy, i, s, t) && s < t
    ensures IsPeak(lazy, i, s, t, s, t, maximum[i])
    decreases t - s
  {
    if t == s + 1 {
      assert Cell(lazy, i, s, t, s) == maximum[i];
    } else {
      var middle := (s + t) / 2;
      MaximumIsPeak(maximum, lazy, 2 * i + 1, s, middle);
      MaximumIsPeak(maximum, lazy, 2 * i + 2, middle, t);
      PeakOfBoth(lazy, i, s, t, s, t, maximum[2 * i + 1], maximum[2 * i + 2]);
    }
  }

  lemma PeakOfBoth(lazy: seq<Height>, i: nat, s: nat, t: nat, lo: nat, hi: nat, left: Height, right: Height)
    requires s + 1 < t && i < |lazy| && s <= lo < (s + t) / 2 < hi <= t
    requires IsPeak(lazy, 2 * i + 1, s, (s + t) / 2, lo, (s + t) / 2, left)
    requires IsPeak(lazy, 2 * i + 2, (s + t) / 2, t, (s + t) / 2, hi, right)
    ensures IsPeak(lazy, i, s, t, lo, hi, Max(lazy[i], Max(left, right)))
    ensures Max(lazy[i], Max(left, right)) == Max(Max(lazy[i], left), right)
  {
    var middle := (s + t) / 2;
    var h := Max(lazy[i], Max(left, right));
    forall c | lo <= c < hi
      ensures AtMost(Cell(lazy, i, s, t, c), h)
    {
      if c < middle {
        assert AtMost(Cell(lazy, 2 * i + 1, s, middle, c), left);
      } else {
        assert AtMost(Cell(lazy, 2 * i + 2, middle, t, c), right);
      }
    }
    var a :| lo <= a < middle && Cell(lazy, 2 * i + 1, s, middle, a) == left;
    var b :| middle <= b < hi && Cell(lazy, 2 * i + 2, middle, t, b) == right;
    assert Cell(lazy, i, s, t, a) == h || Cell(lazy, i, s, t, b) == h;
  }

  lemma PeakOfOne(lazy: seq<Height>, i: nat, s: nat, t: nat, lo: nat, hi: nat, left: bool, h: Height)
    requires s + 1 < t && i < |lazy| && s <= lo < hi <= t
    requires left ==> hi <= (s + t) / 2 && IsPeak(lazy, 2 * i + 1, s, (s + t) / 2, lo, hi, h)
    requires !left ==> (s + t) / 2 <= lo && IsPeak(lazy, 2 * i + 2, (s + t) / 2, t, lo, hi, h)
    ensures IsPeak(lazy, i, s, t, lo, hi, Max(lazy[i], h))
  {
    var middle := (s + t) / 2;
    forall c | lo <= c < hi
      ensures AtMost(Cell(lazy, i, s, t, c), Max(lazy[i], h))
    {
      if left {
        assert AtMost(Cell(lazy, 2 * i + 1, s, middle, c), h);
      } else {
        assert AtMost(Cell(lazy, 2 * i + 2, middle, t, c), h);
      }
    }
    if left {
      var a :| lo <= a < hi && Cell(lazy, 2 * i + 1, s, middle, a) == h;
      assert Cell(lazy, i, s, t, a) == Max(lazy[i], h);
    } else {
      var b :| lo <= b < hi && Cell(lazy, 2 * i + 2, middle, t, b) == h;
      assert Cell(lazy, i, s, t, b) == Max(lazy[i], h);
    }
  }

  /** A subtree's cells and sanity depend on its own nodes only. */
  lemma {:induction false} Framed(m0: seq<Height>, z0: seq<Height>, m1: seq<Height>, z1: seq<Height>, i: nat, s: nat, t: nat)
    requires |m0| == |m1| && |z0| == |z1| && |m0| == |z0|
    requires forall j :: 0 <= j < |m0| && Under(i, j) ==> m0[j] == m1[j] && z0[j] == z1[j]
    ensures Sane(m0, z0, i, s, t) ==> Sane(m1, z1, i, s, t)
    ensures forall c :: Cell(z0, i, s, t, c) == Cell(z1, i, s, t, c)
    decreases t - s
  {
    if s + 1 < t {
      var middle := (s + t) / 2;
      forall j, c | 0 <= j < |m0| && (c == 2 * i + 1 || c == 2 * i + 2) && Under(c, j)
        ensures m0[j] == m1[j] && z0[j] == z1[j]
      {
        ChildUnder(i, c, j);
      }
      Framed(m0, z0, m1, z1, 2 * i + 1, s, middle);
      Framed(m0, z0, m1, z1, 2 * i + 2, middle, t);
    }
  }

  /** The effect of raising cells `lo` to `hi` to at least `v`. */
  ghost predicate Raised(z0: seq<Height>, z1: seq<Height>, i: nat, s: nat, t: nat, lo: nat, hi: nat, v: Height) {
    forall c :: s <= c < t ==> Cell(z1, i, s, t, c) == if lo <= c < hi then Max(Cell(z0, i, s, t, c), v) else Cell(z0, i, s, t, c)
  }

  /** The array bound: level by level a node covers fewer cells, `w` being the width of its level. */
  predicate Fits(n: nat, i: nat, w: nat, s: nat, t: nat) {
    && i < 4 * n && 0 < w <= i + 1 < 2 * w
    && s < t <= n && (t - s - 1) * w < n
  }

  lemma MulMono(a: nat, b: nat, w: nat)
    requires a <= b
    ensures a * w <= b * w
  {
    assert b * w == a * w + (b - a) * w;
  }

  /** Halving the cells makes up for doubling the width. */
  lemma HalfFits(n: nat, w: nat, half: nat, whole: nat)
    requires 2 * half <= whole && whole * w < n
    ensures half * (2 * w) < n
  {
    MulMono(2 * half, whole, w);
    assert half * (2 * w) == (2 * half) * w;
  }

  lemma FitsChildren(n: nat, i: nat, w: nat, s: nat, t: nat)
    requires Fits(n, i, w, s, t) && s + 1 < t
    ensures Fits(n, 2 * i + 1, 2 * w, s, (s + t) / 2) && Fits(n, 2 * i + 2, 2 * w, (s + t) / 2, t)
  {
    var middle := (s + t) / 2;
    MulMono(1, t - s - 1, w);
    HalfFits(n, w, middle - s - 1, t - s - 1);
    HalfFits(n, w, t - middle - 1, t - s - 1);
  }

  // ---------------------------------------------------------------------------
  // The tree in its arrays
  // ---------------------------------------------------------------------------

  /** A raise of one child, seen from its parent. */
  lemma RaisedAbove(z0: seq<Height>, z1: seq<Height>, i: nat, s: nat, t: nat, lo: nat, hi: nat, v: Height)
    requires s + 1 < t && i < |z0| && i < |z1| && z0[i] == z1[i]
    requires Raised(z0, z1, 2 * i + 1, s, (s + t) / 2, lo, hi, v) && Raised(z0, z1, 2 * i + 2, (s + t) / 2, t, lo, hi, v)
    ensures Raised(z0, z1, i, s, t, lo, hi, v)
  {
    var middle := (s + t) / 2;
    forall c | s <= c < t
      ensures Cell(z1, i, s, t, c) == if lo <= c < hi then Max(Cell(z0, i, s, t, c), v) else Cell(z0, i, s, t, c)
    {
      if c < middle {
        assert Cell(z1, 2 * i + 1, s, middle, c) == if lo <= c < hi then Max(Cell(z0, 2 * i + 1, s, middle, c), v) else Cell(z0, 2 * i + 1, s, middle, c);
      } else {
        assert Cell(z1, 2 * i + 2, middle, t, c) == if lo <= c < hi then Max(Cell(z0, 2 * i + 2, middle, t, c), v) else Cell(z0, 2 * i + 2, middle, t, c);
      }
    }
  }

  /** Covering a whole node raises its own entry only. */
  lemma RaisedWhole(m0: seq<Height>, z0: seq<Height>, i: nat, s: nat, t: nat, v: Height)
    requires Sane(m0, z0, i, s, t) && s < t && |m0| == |z0|
    ensures Sane(m0[i := Max(m0[i], v)], z0[i := Max(z0[i], v)], i, s, t)
    ensures Raised(z0, z0[i := Max(z0[i], v)], i, s, t, s, t, v)
  {
    var m1, z1 := m0[i := Max(m0[i], v)], z0[i := Max(z0[i], v)];
    if s + 1 < t {
      var middle := (s + t) / 2;
      forall j, c | 0 <= j < |m0| && (c == 2 * i + 1 || c == 2 * i + 2) && Under(c, j)
        ensures m0[j] == m1[j] && z0[j] == z1[j]
      {
        ChildUnder(i, c, j);
      }
      Framed(m0, z0, m1, z1, 2 * i + 1, s, middle);
      Framed(m0, z0, m1, z1, 2 * i + 2, middle, t);
    }
    forall c | s <= c < t
      ensures Cell(z1, i, s, t, c) == Max(Cell(z0, i, s, t, c), v)
    {
      assert z1[i] == Max(z0[i], v);
    }
  }

  /** After the children have been raised, the node's maximum is recomputed from them. */
  lemma RaisedParts(m0: seq<Height>, z0: seq<Height>, m1: seq<Height>, z1: seq<Height>, i: nat, s: nat, t: nat, lo: nat, hi: nat, v: Height)
    requires s + 1 < t && |m0| == |z0| == |m1| == |z1| && i < |m0| && z1[i] == z0[i]
    requires Sane(m1, z1, 2 * i + 1, s, (s + t) / 2) && Sane(m1, z1, 2 * i + 2, (s + t) / 2, t)
    requires Raised(z0, z1, 2 * i + 1, s, (s + t) / 2, lo, hi, v) && Raised(z0, z1, 2 * i + 2, (s + t) / 2, t, lo, hi, v)
    ensures 2 * i + 2 < |m1|
    ensures var m2 := m1[i := Max(z1[i], Max(m1[2 * i + 1], m1[2 * i + 2]))];
      Sane(m2, z1, i, s, t) && Raised(z0, z1, i, s, t, lo, hi, v)
  {
    var middle := (s + t) / 2;
    var m2 := m1[i := Max(z1[i], Max(m1[2 * i + 1], m1[2 * i + 2]))];
    forall j, c | 0 <= j < |m1| && (c == 2 * i + 1 || c == 2 * i + 2) && Under(c, j)
      ensures m1[j] == m2[j]
    {
      ChildUnder(i, c, j);
    }
    Framed(m1, z1, m2, z1, 2 * i + 1, s, middle);
    Framed(m1, z1, m2, z1, 2 * i + 2, middle, t);
    RaisedAbove(z0, z1, i, s, t, lo, hi, v);
  }

  ghost predicate SameCells(z0: seq<Height>, z1: seq<Height>, i: nat, s: nat, t: nat) {
    forall c: nat {:trigger Cell(z1, i, s, t, c)} :: Cell(z0, i, s, t, c) == Cell(z1, i, s, t, c)
  }

  /** One child was visited and nothing outside it changed: the other child is as it was. */
  lemma OtherChild(m0: seq<Height>, z0: seq<Height>, m1: seq<Height>, z1: seq<Height>, visited: nat, other: nat, s: nat, t: nat)
    requires |m0| == |z0| == |m1| == |z1| && Outside(m0, z0, m1, z1, visited)
    requires exists i: nat :: (visited == 2 * i + 1 && other == 2 * i + 2) || (visited == 2 * i + 2 && other == 2 * i + 1)
    ensures Sane(m0, z0, other, s, t) ==> Sane(m1, z1, other, s, t)
    ensures SameCells(z0, z1, other, s, t)
  {
    var i: nat :| (visited == 2 * i + 1 && other == 2 * i + 2) || (visited == 2 * i + 2 && other == 2 * i + 1);
    forall j: nat | j < |m0| && Under(other, j)
      ensures m0[j] == m1[j] && z0[j] == z1[j]
    {
      SiblingsApart(i, j);
    }
    Framed(m0, z0, m1, z1, other, s, t);
  }

  lemma NotUnderChildren(i: nat, j: nat)
    requires !Under(i, j) || j == i
    ensures !Under(2 * i + 1, j) && !Under(2 * i + 2, j)
  {
    if Under(2 * i + 1, j) {
      ChildUnder(i, 2 * i + 1, j);
    }
    if Under(2 * i + 2, j) {
      ChildUnder(i, 2 * i + 2, j);
    }
  }

  /** Nodes outside the subtree keep their entries. */
  ghost predicate Outside(m0: seq<Height>, z0: seq<Height>, m1: seq<Height>, z1: seq<Height>, i: nat)
    requires |m0| == |z0| == |m1| == |z1|
  {
    forall j :: 0 <= j < |m0| && !Under(i, j) ==> m0[j] == m1[j] && z0[j] == z1[j]
  }

  lemma OutsideAbove(m0: seq<Height>, z0: seq<Height>, m1: seq<Height>, z1: seq<Height>, i: nat, c: nat)
    requires |m0| == |z0| == |m1| == |z1| && Outside(m0, z0, m1, z1, c) && (c == 2 * i + 1 || c == 2 * i + 2)
    ensures Outside(m0, z0, m1, z1, i)
    ensures i < |m0| ==> m0[i] == m1[i] && z0[i] == z1[i]
  {
    NotUnderChildren(i, i);
    forall j | 0 <= j < |m0| && !Under(i, j)
      ensures m0[j] == m1[j] && z0[j] == z1[j]
    {
      NotUnderChildren(i, j);
    }
  }

  /** The query below node `i`, read off the arrays without changing them. */
  method Ask(maximum: array<Height>, lazy: array<Height>, n: nat, left: nat, right: nat, i: nat, s: nat, t: nat, ghost w: nat)
      returns (found: Height)
    requires maximum.Length == 4 * n && lazy.Length == 4 * n && Fits(n, i, w, s, t)
    requires left < t && s < right && left < right && Sane(maximum[..], lazy[..], i, s, t)
    ensures IsPeak(lazy[..], i, s, t, Upper(left, s), Lower(right, t), found)
    decreases t - s
  {
    if left <= s && t <= right {
      MaximumIsPeak(maximum[..], lazy[..], i, s, t);
      return maximum[i];
    }
    var middle := (s + t) / 2;
    FitsChildren(n, i, w, s, t);
    found := lazy[i];
    if left < middle {
      var a := Ask(maximum, lazy, n, left, right, 2 * i + 1, s, middle, 2 * w);
      found := Max(found, a);
      if right > middle {
        var b := Ask(maximum, lazy, n, left, right, 2 * i + 2, middle, t, 2 * w);
        PeakOfBoth(lazy[..], i, s, t, Upper(left, s), Lower(right, t), a, b);
        found := Max(found, b);
      } else {
        PeakOfOne(lazy[..], i, s, t, Upper(left, s), Lower(right, t), true, a);
      }
    } else {
      var b := Ask(maximum, lazy, n, left, right, 2 * i + 2, middle, t, 2 * w);
      PeakOfOne(lazy[..], i, s, t, Upper(left, s), Lower(right, t), false, b);
      found := Max(found, b);
    }
  }

  /** The update below node `i`: whole nodes are raised in place, and maxima are recomputed on the way back. */
  method Raise(maximum: array<Height>, lazy: array<Height>, n: nat, left: nat, right: nat, v: Height, i: nat, s: nat, t: nat, ghost w: nat)
    requires maximum != lazy && maximum.Length == 4 * n && lazy.Length == 4 * n && Fits(n, i, w, s, t)
    requires left < t && s < right && left < right && Sane(maximum[..], lazy[..], i, s, t)
    modifies maximum, lazy
    ensures Sane(maximum[..], lazy[..], i, s, t)
    ensures Outside(old(maximum[..]), old(lazy[..]), maximum[..], lazy[..], i)
    ensures Raised(old(lazy[..]), lazy[..], i, s, t, left, right, v)
    decreases t - s, 1
  {
    ghost var m0, z0 := maximum[..], lazy[..];
    if left <= s && t <= right {
      RaisedWhole(m0, z0, i, s, t, v);
      maximum[i] := Max(maximum[i], v);
      lazy[i] := Max(lazy[i], v);
      assert maximum[..] == m0[i := Max(m0[i], v)] && lazy[..] == z0[i := Max(z0[i], v)];
      return;
    }
    var middle := (s + t) / 2;
    FitsChildren(n, i, w, s, t);
    RaiseChild(maximum, lazy, n, left, right, v, i, 2 * i + 1, s, middle, 2 * i + 2, middle, t, 2 * w);
    ghost var m1, z1 := maximum[..], lazy[..];
    RaiseChild(maximum, lazy, n, left, right, v, i, 2 * i + 2, middle, t, 2 * i + 1, s, middle, 2 * w);
    ghost var m2, z2 := maximum[..], lazy[..];
    SidesMeet(z0, z1, z2, i, s, t, left, right, v);
    RaisedParts(m0, z0, m2, z2, i, s, t, left, right, v);
    maximum[i] := Max(lazy[i], Max(maximum[2 * i + 1], maximum[2 * i + 2]));
    assert maximum[..] == m2[i := Max(z2[i], Max(m2[2 * i + 1], m2[2 * i + 2]))];
  }

  lemma SidesMeet(z0: seq<Height>, z1: seq<Height>, z2: seq<Height>, i: nat, s: nat, t: nat, lo: nat, hi: nat, v: Height)
    requires Raised(z0, z1, 2 * i + 1, s, (s + t) / 2, lo, hi, v) && SameCells(z1, z2, 2 * i + 1, s, (s + t) / 2)
    requires SameCells(z0, z1, 2 * i + 2, (s + t) / 2, t) && Raised(z1, z2, 2 * i + 2, (s + t) / 2, t, lo, hi, v)
    ensures Raised(z0, z2, 2 * i + 1, s, (s + t) / 2, lo, hi, v) && Raised(z0, z2, 2 * i + 2, (s + t) / 2, t, lo, hi, v)
  {
  }

  /** Visits child `c` of `i` if the update reaches it; either way the child is raised and its sibling `d` unchanged. */
  method RaiseChild(maximum: array<Height>, lazy: array<Height>, n: nat, left: nat, right: nat, v: Height, ghost i: nat,
      c: nat, cs: nat, ct: nat, ghost d: nat, ghost ds: nat, ghost dt: nat, ghost w: nat)
    requires maximum != lazy && maximum.Length == 4 * n && lazy.Length == 4 * n && i < 4 * n
    requires Fits(n, c, w, cs, ct) && left < right
    requires (c == 2 * i + 1 && d == 2 * i + 2) || (c == 2 * i + 2 && d == 2 * i + 1)
    requires Sane(maximum[..], lazy[..], c, cs, ct) && Sane(maximum[..], lazy[..], d, ds, dt)
    modifies maximum, lazy
    ensures Sane(maximum[..], lazy[..], c, cs, ct) && Sane(maximum[..], lazy[..], d, ds, dt)
    ensures Outside(old(maximum[..]), old(lazy[..]), maximum[..], lazy[..], i) && lazy[i] == old(lazy[i])
    ensures Raised(old(lazy[..]), lazy[..], c, cs, ct, left, right, v) && SameCells(old(lazy[..]), lazy[..], d, ds, dt)
    decreases ct - cs, 2
  {
    ghost var m0, z0 := maximum[..], lazy[..];
    if left < ct && cs < right {
      Raise(maximum, lazy, n, left, right, v, c, cs, ct, w);
      OutsideAbove(m0, z0, maximum[..], lazy[..], i, c);
      OtherChild(m0, z0, maximum[..], lazy[..], c, d, ds, dt);
    }
  }

  // ---------------------------------------------------------------------------
  // Spans of coordinates
  // ---------------------------------------------------------------------------

  datatype Span = Span(left: real, right: real)

  /** One earlier update. */
  datatype Lift = Lift(span: Span, height: Height)

  predicate Overlap(a: Span, b: Span) {
    a.left < b.right && b.left < a.right
  }

  ghost predicate Increasing(coordinates: seq<real>) {
    forall i, j :: 0 <= i < j < |coordinates| ==> coordinates[i] < coordinates[j]
  }

  ghost predicate Known(coordinates: seq<real>, span: Span) {
    span.left in coordinates && span.right in coordinates && span.left < span.right
  }

  /** The span includes the cell between coordinates `c` and `c + 1`. */
  predicate Includes(coordinates: seq<real>, span: Span, c: nat)
    requires c + 1 < |coordinates|
  {
    span.left <= coordinates[c] && coordinates[c + 1] <= span.right
  }

  /** The greatest height among the updates that include cell `c`. */
  function Covering(coordinates: seq<real>, updates: seq<Lift>, c: nat): Height
    requires c + 1 < |coordinates|
  {
    if updates == [] then Low
    else
      var last := updates[|updates| - 1];
      var before := Covering(coordinates, updates[..|updates| - 1], c);
      if Includes(coordinates, last.span, c) then Max(before, last.height) else before
  }

  /** `h` is the greatest height of the updates whose spans overlap `q`: minus infinity when there are none. */
  ghost predicate IsFloor(updates: seq<Lift>, q: Span, h: Height) {
    && (forall u :: u in updates && Overlap(u.span, q) ==> AtMost(u.height, h))
    && (h.At? ==> exists u :: u in updates && Overlap(u.span, q) && u.height == h)
  }

  lemma {:induction false} CoveringBounds(coordinates: seq<real>, updates: seq<Lift>, c: nat, u: Lift)
    requires c + 1 < |coordinates| && u in updates && Includes(coordinates, u.span, c)
    ensures AtMost(u.height, Covering(coordinates, updates, c))
    decreases |updates|
  {
    var k := |updates| - 1;
    if u != updates[k] {
      assert u in updates[..k];
      CoveringBounds(coordinates, updates[..k], c, u);
    }
  }

  lemma {:induction false} CoveringAttained(coordinates: seq<real>, updates: seq<Lift>, c: nat)
    requires c + 1 < |coordinates|
    ensures var h := Covering(coordinates, updates, c);
      h.At? ==> exists u :: u in updates && Includes(coordinates, u.span, c) && u.height == h
    decreases |updates|
  {
    if updates != [] {
      var k := |updates| - 1;
      CoveringAttained(coordinates, updates[..k], c);
      var h := Covering(coordinates, updates, c);
      if h.At? {
        if Includes(coordinates, updates[k].span, c) && h == updates[k].height {
          assert updates[k] in updates;
        } else {
          assert h == Covering(coordinates, updates[..k], c);
          var u :| u in updates[..k] && Includes(coordinates, u.span, c) && u.height == h;
          assert u in updates;
        }
      }
    }
  }

  ghost predicate BisectOf(coordinates: seq<real>, point: real, i: nat) {
    && i <= |coordinates|
    && (forall j :: 0 <= j < i ==> coordinates[j] < point)
    && (forall j :: i <= j < |coordinates| ==> point <= coordinates[j])
  }

  /** The leftmost place of a point in the sorted coordinates. */
  method Bisect(coordinates: seq<real>, point: real) returns (i: nat)
    requires Increasing(coordinates)
    ensures BisectOf(coordinates, point, i)
    ensures point in coordinates ==> i < |coordinates| && coordinates[i] == point
  {
    i := 0;
    var hi := |coordinates|;
    while i < hi
      invariant 0 <= i <= hi <= |coordinates|
      invariant forall j :: 0 <= j < i ==> coordinates[j] < point
      invariant forall j :: hi <= j < |coordinates| ==> point <= coordinates[j]
    {
      var middle := (i + hi) / 2;
      if coordinates[middle] < point {
        i := middle + 1;
      } else {
        hi := middle;
      }
    }
  }

  /** The endpoints of all spans, sorted, each once. */
  method Compress(spans: seq<Span>) returns (coordinates: seq<real>)
    ensures Increasing(coordinates)
    ensures forall i :: 0 <= i < |spans| ==> spans[i].left in coordinates && spans[i].right in coordinates
  {
    coordinates := [];
    for k := 0 to |spans|
      invariant Increasing(coordinates)
      invariant forall i :: 0 <= i < k ==> spans[i].left in coordinates && spans[i].right in coordinates
    {
      var first := Insert(coordinates, spans[k].left);
      coordinates := Insert(first, spans[k].right);
    }
  }

  method Insert(coordinates: seq<real>, point: real) returns (more: seq<real>)
    requires Increasing(coordinates)
    ensures Increasing(more) && point in more && forall x :: x in coordinates ==> x in more
  {
    var i := Bisect(coordinates, point);
    if i < |coordinates| && coordinates[i] == point {
      return coordinates;
    }
    more := coordinates[..i] + [point] + coordinates[i..];
    assert more[i] == point;
    forall x | x in coordinates
      ensures x in more
    {
      var j :| 0 <= j < |coordinates| && coordinates[j] == x;
      assert more[if j < i then j else j + 1] == x;
    }
  }

  lemma BisectFinds(coordinates: seq<real>, point: real, l: nat, i: nat)
    requires Increasing(coordinates) && BisectOf(coordinates, point, l) && i < |coordinates| && coordinates[i] == point
    ensures i == l
  {
    assert l < |coordinates| ==> point <= coordinates[l];
  }

  /** In cells: what a span includes is the stretch between its bisected ends. */
  lemma SpanCells(coordinates: seq<real>, span: Span, l: nat, r: nat)
    requires Increasing(coordinates) && Known(coordinates, span)
    requires BisectOf(coordinates, span.left, l) && BisectOf(coordinates, span.right, r)
    ensures l < r < |coordinates|
    ensures forall c: nat {:trigger Includes(coordinates, span, c)} :: c + 1 < |coordinates| ==> (Includes(coordinates, span, c) <==> l <= c < r)
  {
    var i :| 0 <= i < |coordinates| && coordinates[i] == span.left;
    var j :| 0 <= j < |coordinates| && coordinates[j] == span.right;
    BisectFinds(coordinates, span.left, l, i);
    BisectFinds(coordinates, span.right, r, j);
  }

  /** Overlapping known spans share a cell, and spans that share a cell overlap. */
  lemma OverlapCells(coordinates: seq<real>, a: Span, b: Span) returns (c: nat)
    requires Increasing(coordinates) && Known(coordinates, a) && Known(coordinates, b) && Overlap(a, b)
    ensures c + 1 < |coordinates| && Includes(coordinates, a, c) && Includes(coordinates, b, c)
  {
    var i :| 0 <= i < |coordinates| && coordinates[i] == a.left;
    var j :| 0 <= j < |coordinates| && coordinates[j] == b.left;
    var m :| 0 <= m < |coordinates| && coordinates[m] == a.right;
    var n :| 0 <= n < |coordinates| && coordinates[n] == b.right;
    c := if i <= j then j else i;
    assert c < m && c < n;
  }

  /** The peak over the cells of a span is the floor under the span. */
  lemma PeakIsFloor(coordinates: seq<real>, updates: seq<Lift>, q: Span, l: nat, r: nat, h: Height)
    requires Increasing(coordinates) && Known(coordinates, q) && forall u :: u in updates ==> Known(coordinates, u.span)
    requires BisectOf(coordinates, q.left, l) && BisectOf(coordinates, q.right, r) && r < |coordinates|
    requires forall c :: l <= c < r ==> AtMost(Covering(coordinates, updates, c), h)
    requires exists c :: l <= c < r && Covering(coordinates, updates, c) == h
    ensures IsFloor(updates, q, h)
  {
    SpanCells(coordinates, q, l, r);
    forall u | u in updates && Overlap(u.span, q)
      ensures AtMost(u.height, h)
    {
      var c := OverlapCells(coordinates, u.span, q);
      CoveringBounds(coordinates, updates, c, u);
    }
    if h.At? {
      var c :| l <= c < r && Covering(coordinates, updates, c) == h;
      CoveringAttained(coordinates, updates, c);
      var u :| u in updates && Includes(coordinates, u.span, c) && u.height == h;
      assert Includes(coordinates, q, c);
      assert coordinates[c] < coordinates[c + 1];
    }
  }

  class Floor {
    const coordinates: seq<real>
    const size: nat
    const maximum: array<Height>
    const lazy: array<Height>
    /** All updates so far, oldest first. */
    ghost var updates: seq<Lift>

    ghost predicate Valid()
      reads this, maximum, lazy
    {
      && Increasing(coordinates) && size > 0 && (|coordinates| >= 2 ==> size == |coordinates| - 1)
      && maximum != lazy && maximum.Length == 4 * size && lazy.Length == 4 * size
      && Sane(maximum[..], lazy[..], 0, 0, size)
      && (forall u :: u in updates ==> Known(coordinates, u.span))
      && (|coordinates| >= 2 ==> forall c: nat {:trigger Cell(lazy[..], 0, 0, size, c)} :: c < size ==>
            Cell(lazy[..], 0, 0, size, c) == Covering(coordinates, updates, c))
    }

    constructor (spans: seq<Span>)
      ensures Valid() && fresh(maximum) && fresh(lazy) && updates == []
      ensures forall i :: 0 <= i < |spans| && spans[i].left < spans[i].right ==> Known(coordinates, spans[i])
    {
      var points := Compress(spans);
      coordinates := points;
      var cells := if |points| >= 2 then |points| - 1 else 1;
      size := cells;
      maximum := new Height[4 * cells](_ => Low);
      lazy := new Height[4 * cells](_ => Low);
      updates := [];
      new;
      FitsRoot(cells);
      FlatIsSane(maximum[..], lazy[..], cells, 0, 1, 0, cells);
    }

    /** The floor under a span. */
    method Range(span: Span) returns (h: Height)
      requires Valid() && Known(coordinates, span)
      ensures IsFloor(updates, span, h)
    {
      var left := Bisect(coordinates, span.left);
      var right := Bisect(coordinates, span.right);
      SpanCells(coordinates, span, left, right);
      FitsRoot(size);
      h := Ask(maximum, lazy, size, left, right, 0, 0, size, 1);
      assert forall c: nat :: left <= c < right ==> Cell(lazy[..], 0, 0, size, c) == Covering(coordinates, updates, c);
      PeakIsFloor(coordinates, updates, span, left, right, h);
    }

    /** Raises the floor under a span. */
    method Update(span: Span, y: real)
      requires Valid() && Known(coordinates, span)
      modifies this, maximum, lazy
      ensures Valid() && updates == old(updates) + [Lift(span, At(y))]
    {
      var left := Bisect(coordinates, span.left);
      var right := Bisect(coordinates, span.right);
      SpanCells(coordinates, span, left, right);
      FitsRoot(size);
      ghost var before := lazy[..];
      Raise(maximum, lazy, size, left, right, At(y), 0, 0, size, 1);
      ghost var added := Lift(span, At(y));
      assert (updates + [added])[..|updates|] == updates;
      forall c: nat | c < size
        ensures Cell(lazy[..], 0, 0, size, c) == Covering(coordinates, updates + [added], c)
      {
        assert Cell(before, 0, 0, size, c) == Covering(coordinates, updates, c);
      }
      updates := updates + [added];
    }
  }

  lemma FitsRoot(n: nat)
    requires n > 0
    ensures Fits(n, 0, 1, 0, n)
  {
  }

  /** An untouched tree is sane, and all its cells are at minus infinity. */
  lemma {:induction false} FlatIsSane(maximum: seq<Height>, lazy: seq<Height>, n: nat, i: nat, w: nat, s: nat, t: nat)
    requires |maximum| == 4 * n && |lazy| == 4 * n && Fits(n, i, w, s, t)
    requires forall j :: 0 <= j < 4 * n ==> maximum[j] == Low && lazy[j] == Low
    ensures Sane(maximum, lazy, i, s, t)
    ensures forall c: nat {:trigger Cell(lazy, i, s, t, c)} :: Cell(lazy, i, s, t, c) == Low
    decreases t - s
  {
    if s + 1 < t {
      FitsChildren(n, i, w, s, t);
      FlatIsSane(maximum, lazy, n, 2 * i + 1, 2 * w, s, (s + t) / 2);
      FlatIsSane(maximum, lazy, n, 2 * i + 2, 2 * w, (s + t) / 2, t);
    }
  }
}
