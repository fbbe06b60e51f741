/** Keeping a connector's own channel when its ends move vertically. */
module ChannelRoutes {
  import opened Options

  datatype Point = Point(x: real, y: real)

  predicate Orthogonal(route: seq<Point>) {
    forall i :: 0 < i < |route| ==> route[i - 1].x == route[i].x || route[i - 1].y == route[i].y
  }

  /** The two ends from the top down, before and after. */
  datatype Stretch = Stretch(low: real, high: real, newLow: real, newHigh: real)

  predicate Opens(s: Stretch) {
    s.low < s.high && s.newLow < s.newHigh
  }

  function StretchOf(first: real, last: real, start: real, end: real): Stretch {
    if first > last then Stretch(last, first, end, start) else Stretch(first, last, start, end)
  }

  /** Heights between the ends are stretched, heights beyond them shifted. */
  function Shift(s: Stretch, y: real): real
    requires Opens(s)
  {
    if y < s.low then s.newLow + (y - s.low)
    else if y > s.high then s.newHigh + (y - s.high)
    else s.newLow + (y - s.low) / (s.high - s.low) * (s.newHigh - s.newLow)
  }

  /** The route between new ends, unless the ends moved sideways, were level, or changed places. */
  function Retarget(route: seq<Point>, start: Point, end: Point): (moved: Option<seq<Point>>)
    ensures moved.Some? ==> |route| >= 2 && |moved.value| == |route|
  {
    if |route| < 2 || !Orthogonal(route) || route[0].x != start.x || route[|route| - 1].x != end.x then None
    else
      var s := StretchOf(route[0].y, route[|route| - 1].y, start.y, end.y);
      if !Opens(s) then None
      else
        Some(seq(|route|, i requires 0 <= i < |route| =>
          if i == 0 then start else if i == |route| - 1 then end else Point(route[i].x, Shift(s, route[i].y))))
  }

  lemma PositiveProduct(a: real, b: real)
    requires a > 0.0 && b > 0.0
    ensures a * b > 0.0
  {
  }

  lemma NoLess(a: real, b: real, span: real)
    requires b <= a && span > 0.0
    ensures b * span <= a * span
  {
    if b < a {
      PositiveProduct(a - b, span);
      assert (a - b) * span == a * span - b * span;
    }
  }

  lemma ShareLess(x: real, y: real, span: real)
    requires x < y && span > 0.0
    ensures x / span < y / span
  {
    var a, b := x / span, y / span;
    assert a * span == x && b * span == y;
    if b <= a {
      NoLess(a, b, span);
    }
  }

  lemma ScaledLess(a: real, b: real, span: real)
    requires a < b && span > 0.0
    ensures a * span < b * span
  {
    PositiveProduct(b - a, span);
    assert (b - a) * span == b * span - a * span;
  }

  lemma WholeShare(span: real)
    requires span > 0.0
    ensures span / span == 1.0 && 0.0 / span == 0.0
  {
  }

  /** Within the stretch, heights keep their order. */
  lemma InsideStep(s: Stretch, y: real, z: real)
    requires Opens(s) && s.low <= y < z <= s.high
    ensures Shift(s, y) < Shift(s, z)
  {
    var share, more := (y - s.low) / (s.high - s.low), (z - s.low) / (s.high - s.low);
    ShareLess(y - s.low, z - s.low, s.high - s.low);
    ScaledLess(share, more, s.newHigh - s.newLow);
    assert Shift(s, y) == s.newLow + share * (s.newHigh - s.newLow);
    assert Shift(s, z) == s.newLow + more * (s.newHigh - s.newLow);
  }

  lemma EndsOfStretch(s: Stretch)
    requires Opens(s)
    ensures Shift(s, s.low) == s.newLow && Shift(s, s.high) == s.newHigh
  {
    var span := s.high - s.low;
    WholeShare(span);
    assert Shift(s, s.low) == s.newLow + 0.0 / span * (s.newHigh - s.newLow);
    assert Shift(s, s.high) == s.newLow + span / span * (s.newHigh - s.newLow);
  }

  /** Heights keep their order, strictly: channels that were apart stay apart. */
  lemma ShiftKeepsOrder(s: Stretch, y: real, z: real)
    requires Opens(s) && y < z
    ensures Shift(s, y) < Shift(s, z)
  {
    EndsOfStretch(s);
    var from := if y < s.low then s.low else y;
    var to := if z > s.high then s.high else z;
    if from < to {
      InsideStep(s, from, to);
    }
  }

  lemma WholeWay(part: real, span: real)
    requires span > 0.0
    ensures part / span * span == part
  {
  }

  /** When both ends move alike, the whole route moves as one piece. */
  lemma ShiftIsRigid(s: Stretch, d: real, y: real)
    requires Opens(s) && s.newLow == s.low + d && s.newHigh == s.high + d
    ensures Shift(s, y) == y + d
  {
    if s.low <= y <= s.high {
      var span := s.high - s.low;
      WholeWay(y - s.low, span);
      assert s.newHigh - s.newLow == span;
    }
  }

  /** The other route runs between the new ends, keeps every side position, stays orthogonal, and keeps the order of heights. */
  predicate Fits(route: seq<Point>, start: Point, end: Point, moved: seq<Point>) {
    && |moved| == |route| >= 2 && moved[0] == start && moved[|moved| - 1] == end && Orthogonal(moved)
    && (forall i :: 0 <= i < |route| ==> moved[i].x == route[i].x)
    && (forall i, j :: 0 <= i < |route| && 0 <= j < |route| && route[i].y < route[j].y ==> moved[i].y < moved[j].y)
  }

  lemma RetargetFits(route: seq<Point>, start: Point, end: Point)
    requires Retarget(route, start, end).Some?
    ensures Fits(route, start, end, Retarget(route, start, end).value)
  {
    var moved := Retarget(route, start, end).value;
    var n := |route| - 1;
    var s := StretchOf(route[0].y, route[n].y, start.y, end.y);
    EndsOfStretch(s);
    forall i | 0 <= i < |route|
      ensures moved[i].x == route[i].x && moved[i].y == Shift(s, route[i].y)
    {
    }
    forall i, j | 0 <= i < |route| && 0 <= j < |route| && route[i].y < route[j].y
      ensures moved[i].y < moved[j].y
    {
      ShiftKeepsOrder(s, route[i].y, route[j].y);
    }
  }

  ghost predicate CanFit(route: seq<Point>, start: Point, end: Point) {
    exists moved: seq<Point> :: Fits(route, start, end, moved)
  }

  /** A route is retargeted exactly when it is orthogonal, not level from end to end, and any route at all fits; and then to one that does. */
  lemma RetargetedFits(route: seq<Point>, start: Point, end: Point)
    ensures Retarget(route, start, end).Some? <==>
      |route| >= 2 && Orthogonal(route) && route[0].y != route[|route| - 1].y && CanFit(route, start, end)
    ensures Retarget(route, start, end).Some? ==> Fits(route, start, end, Retarget(route, start, end).value)
  {
    if Retarget(route, start, end).Some? {
      RetargetFits(route, start, end);
    } else if CanFit(route, start, end) {
      var moved: seq<Point> :| Fits(route, start, end, moved);
      assert moved[0].x == route[0].x && moved[|moved| - 1].x == route[|route| - 1].x;
    }
  }
}
