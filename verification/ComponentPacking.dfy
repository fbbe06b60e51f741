/** Moving whole disconnected components closer together.

A component is tried at a bounded number of places. It moves only where its
envelope, and the routes and frames inside it, stay clear of every other
component, of the fee connectors, and within the original outlines. */
module ComponentPacking {
  import opened Measures
  import opened Options
  import opened Sequences
  import opened Sets
  import opened Groups
  import opened Boxes
  import opened GridIndex

  const EDGE_NODE_SPACING := 60.0

  datatype Point = Point(x: real, y: real)

  type Outlines = map<Name, Box>

  /** Closeness to the anchor: the area spanned, then the height, then the side. */
  datatype Score = Score(area: real, y: real, x: real)

  predicate Better(a: Score, b: Score) {
    a.area < b.area || (a.area == b.area && (a.y < b.y || (a.y == b.y && a.x < b.x)))
  }

  function ScoreOf(b: Box, anchor: Point): Score {
    Score((b.right - anchor.x) * (b.bottom - anchor.y), b.top, b.left)
  }

  // ---------------------------------------------------------------------------
  // Spacing
  // ---------------------------------------------------------------------------

  /** The envelopes leave the component spacing between them, on some side. */
  predicate SpacedApart(a: Box, b: Box) {
    || a.left - b.right >= COMPONENT_SPACING - EPSILON || b.left - a.right >= COMPONENT_SPACING - EPSILON
    || a.top - b.bottom >= COMPONENT_SPACING - EPSILON || b.top - a.bottom >= COMPONENT_SPACING - EPSILON
  }

  predicate Blocks(candidate: Box, b: Box) {
    Touch(Expand(candidate, COMPONENT_SPACING), b)
  }

  lemma UnblockedIsSpaced(candidate: Box, b: Box)
    ensures !Blocks(candidate, b) <==> SpacedApart(candidate, b)
    ensures SpacedApart(candidate, b) <==> SpacedApart(b, candidate)
  {
  }

  ghost predicate AllProper(boxes: Outlines) {
    forall k :: k in boxes ==> Proper(boxes[k])
  }

  /** Clear of every other component. */
  ghost predicate ClearOfOthers(boxes: Outlines, owner: Name, candidate: Box) {
    forall k :: k in boxes && k != owner ==> SpacedApart(candidate, boxes[k])
  }

  /** No fee connector comes as near as the clearance. */
  ghost predicate ClearOfObstacles(obstacles: Outlines, candidate: Box) {
    forall k :: k in obstacles ==> !Meet(obstacles[k], Expand(candidate, EDGE_NODE_SPACING))
  }

  // ---------------------------------------------------------------------------
  // Where a component may go
  // ---------------------------------------------------------------------------

  /** What stays the same during a whole packing. */
  datatype Frame = Frame(packing: Box, bounds: Box)

  function Anchor(frame: Frame): Point {
    Point(frame.packing.left, frame.packing.top)
  }

  function MovedTo(b: Box, x: real, y: real): Box {
    Move(b, x - b.left, y - b.top)
  }

  /** Inside both outlines, and an improvement. */
  predicate Fits(frame: Frame, original: Box, geometry: Box, candidate: Box) {
    && Within(candidate, frame.packing)
    && Within(Move(geometry, candidate.left - original.left, candidate.top - original.top), frame.bounds)
    && Better(ScoreOf(candidate, Anchor(frame)), ScoreOf(original, Anchor(frame)))
  }

  /** A place the component may be moved to. */
  ghost predicate Acceptable(frame: Frame, boxes: Outlines, obstacles: Outlines, owner: Name, geometry: Box, candidate: Box) {
    && owner in boxes
    && candidate == MovedTo(boxes[owner], candidate.left, candidate.top)
    && Fits(frame, boxes[owner], geometry, candidate)
    && ClearOfOthers(boxes, owner, candidate)
    && ClearOfObstacles(obstacles, candidate)
  }

  /** The first to give way: least bottom, then least right end, then least key. */
  predicate FirstBlocker(boxes: Outlines, a: Name, b: Name)
    requires a in boxes && b in boxes
  {
    boxes[a].bottom < boxes[b].bottom
    || (boxes[a].bottom == boxes[b].bottom && (boxes[a].right < boxes[b].right || (boxes[a].right == boxes[b].right && a.rank <= b.rank)))
  }

  /** The blocking component to be passed next, if any blocks at all. */
  method Blocker(boxes: Outlines, owner: Name, candidate: Box, contacts: seq<Name>) returns (blocker: Option<Name>)
    requires forall k :: k in contacts ==> k in boxes
    ensures blocker.None? <==> forall k :: k in contacts && k in boxes && k != owner ==> !Blocks(candidate, boxes[k])
    ensures blocker.Some? ==> blocker.value in contacts && blocker.value in boxes && blocker.value != owner
    ensures blocker.Some? ==> Blocks(candidate, boxes[blocker.value])
    ensures blocker.Some? ==> forall k :: k in contacts && k in boxes && k != owner && Blocks(candidate, boxes[k]) ==>
      FirstBlocker(boxes, blocker.value, k)
  {
    blocker := None;
    for i := 0 to |contacts|
      invariant blocker.None? <==> forall k :: k in contacts[..i] && k in boxes && k != owner ==> !Blocks(candidate, boxes[k])
      invariant blocker.Some? ==> blocker.value in contacts && blocker.value in boxes && blocker.value != owner
      invariant blocker.Some? ==> Blocks(candidate, boxes[blocker.value])
      invariant blocker.Some? ==> forall k :: k in contacts[..i] && k in boxes && k != owner && Blocks(candidate, boxes[k]) ==>
        FirstBlocker(boxes, blocker.value, k)
    {
      var k := contacts[i];
      assert k in contacts;
      assert contacts[..i + 1] == contacts[..i] + [k];
      if k != owner && Blocks(candidate, boxes[k]) {
        if blocker.None? || FirstBlocker(boxes, k, blocker.value) {
          blocker := Some(k);
        }
      }
    }
    assert contacts[..|contacts|] == contacts;
  }

  /** What the two indexes hold during a packing. */
  ghost predicate Indexed(index: Index, obstacleIndex: Index, boxes: Outlines, obstacles: Outlines)
    reads index, obstacleIndex
  {
    && index != obstacleIndex && index.Valid() && obstacleIndex.Valid() && index.budget == obstacleIndex.budget
    && index.boxes == boxes && obstacleIndex.boxes == obstacles
  }

  /** If nothing in a complete answer blocks the candidate, no component does. */
  lemma NothingBlocks(index: Index, owner: Name, candidate: Box, contacts: seq<Name>)
    requires index.Valid() && AllProper(index.boxes) && Proper(candidate)
    requires Found(index.boxes, Expand(candidate, COMPONENT_SPACING), Candidates(index.memberships, Reach(Expand(candidate, COMPONENT_SPACING))), contacts)
    requires forall k :: k in contacts && k in index.boxes && k != owner ==> !Blocks(candidate, index.boxes[k])
    ensures ClearOfOthers(index.boxes, owner, candidate)
  {
    var wide := Expand(candidate, COMPONENT_SPACING);
    AnswerIsComplete(index.boxes, index.memberships, index.overflow, wide, contacts);
    forall k | k in index.boxes && k != owner
      ensures SpacedApart(candidate, index.boxes[k])
    {
      UnblockedIsSpaced(candidate, index.boxes[k]);
      BlockingMeets(candidate, index.boxes[k]);
    }
  }

  lemma BlockingMeets(candidate: Box, b: Box)
    requires Proper(candidate) && Proper(b)
    ensures Blocks(candidate, b) ==> Meet(b, Expand(candidate, COMPONENT_SPACING))
  {
    if Blocks(candidate, b) {
      TouchMeets(b, Expand(candidate, COMPONENT_SPACING));
    }
  }

  ghost predicate NearObstacle(obstacles: Outlines, candidate: Box) {
    exists k :: k in obstacles && Near(obstacles[k], Expand(candidate, EDGE_NODE_SPACING))
  }

  /** Nothing stands in the way of the candidate. */
  ghost predicate Free(frame: Frame, boxes: Outlines, obstacles: Outlines, owner: Name, geometry: Box, candidate: Box) {
    && owner in boxes && Fits(frame, boxes[owner], geometry, candidate)
    && ClearOfOthers(boxes, owner, candidate) && !NearObstacle(obstacles, candidate)
  }

  /** The budget has run out, or some query met a limit. */
  predicate Spent(budget: Budget)
    reads budget
  {
    budget.truncated || budget.remaining < 0
  }

  /** Whether the fee connectors leave room; an unanswered query counts as no. */
  method RoomForFees(obstacleIndex: Index, candidate: Box) returns (room: bool)
    requires obstacleIndex.Valid()
    modifies obstacleIndex.budget
    ensures room ==> ClearOfObstacles(obstacleIndex.boxes, candidate)
    ensures !room ==> obstacleIndex.budget.truncated || NearObstacle(obstacleIndex.boxes, candidate)
    ensures old(obstacleIndex.budget.truncated) ==> obstacleIndex.budget.truncated
    ensures old(Spent(obstacleIndex.budget)) ==> Spent(obstacleIndex.budget)
  {
    var answer := obstacleIndex.Query(Expand(candidate, EDGE_NODE_SPACING));
    if answer.None? {
      return false;
    }
    AnswerIsComplete(obstacleIndex.boxes, obstacleIndex.memberships, obstacleIndex.overflow, Expand(candidate, EDGE_NODE_SPACING), answer.value);
    room := answer.value == [];
    if !room {
      var k := answer.value[0];
      assert k in answer.value;
    }
  }

  /** One look at a candidate: it may be taken, abandoned, or pushed past a blocking component. */
  datatype Look = Abandon | Take | PushPast(blocker: Name)

  method LookAt(ghost frame: Frame, boxes: Outlines, ghost obstacles: Outlines, owner: Name, ghost geometry: Box, candidate: Box,
      index: Index, obstacleIndex: Index) returns (look: Look)
    requires Indexed(index, obstacleIndex, boxes, obstacles) && AllProper(boxes) && owner in boxes
    requires candidate == MovedTo(boxes[owner], candidate.left, candidate.top) && Fits(frame, boxes[owner], geometry, candidate)
    modifies index.budget
    ensures look.Take? ==> Acceptable(frame, boxes, obstacles, owner, geometry, candidate)
    ensures look.PushPast? ==> look.blocker in boxes && look.blocker != owner && Blocks(candidate, boxes[look.blocker])
    ensures !look.Take? ==> index.budget.truncated || !Free(frame, boxes, obstacles, owner, geometry, candidate)
    ensures old(index.budget.truncated) ==> index.budget.truncated
    ensures old(Spent(index.budget)) ==> Spent(index.budget)
  {
    var answer := index.Query(Expand(candidate, COMPONENT_SPACING));
    if answer.None? {
      return Abandon;
    }
    AnswerIsComplete(index.boxes, index.memberships, index.overflow, Expand(candidate, COMPONENT_SPACING), answer.value);
    var blocker := Blocker(boxes, owner, candidate, answer.value);
    if blocker.Some? {
      UnblockedIsSpaced(candidate, boxes[blocker.value]);
      return PushPast(blocker.value);
    }
    NothingBlocks(index, owner, candidate, answer.value);
    var room := RoomForFees(obstacleIndex, candidate);
    return if room then Take else Abandon;
  }

  /** The next place past a blocking component: below it if that fits, else to its right. */
  function Pushed(frame: Frame, original: Box, at: Point, blocker: Box): Option<Point> {
    var below, right := blocker.bottom + COMPONENT_SPACING, blocker.right + COMPONENT_SPACING;
    if below + (original.bottom - original.top) <= frame.packing.bottom + EPSILON then Some(Point(at.x, below))
    else if right + (original.right - original.left) <= frame.packing.right + EPSILON then Some(Point(right, at.y))
    else None
  }

  /** The next look is past the component that blocked this one, and does not run out of the outline that way. */
  lemma PushedPast(frame: Frame, original: Box, at: Point, blocker: Box)
    requires Proper(original) && Proper(blocker) && Pushed(frame, original, at, blocker).Some?
    ensures var next := Pushed(frame, original, at, blocker).value;
      var moved := MovedTo(original, next.x, next.y);
      && !Blocks(moved, blocker)
      && ((next.x == at.x && moved.bottom <= frame.packing.bottom + EPSILON) || (next.y == at.y && moved.right <= frame.packing.right + EPSILON))
  {
  }

  ghost predicate BestSoFar(frame: Frame, boxes: Outlines, obstacles: Outlines, owner: Name, geometry: Box, best: Option<Box>) {
    best.Some? ==> Acceptable(frame, boxes, obstacles, owner, geometry, best.value)
  }

  /** If the place is free, the best so far is no worse. */
  ghost predicate Weighed(frame: Frame, boxes: Outlines, obstacles: Outlines, owner: Name, geometry: Box, best: Option<Box>, at: Point)
    requires owner in boxes
  {
    var candidate := MovedTo(boxes[owner], at.x, at.y);
    Free(frame, boxes, obstacles, owner, geometry, candidate) ==>
      best.Some? && !Better(ScoreOf(candidate, Anchor(frame)), ScoreOf(best.value, Anchor(frame)))
  }

  ghost predicate AllWeighed(frame: Frame, boxes: Outlines, obstacles: Outlines, owner: Name, geometry: Box, best: Option<Box>, inspected: set<Point>)
    requires owner in boxes
  {
    forall at {:trigger Weighed(frame, boxes, obstacles, owner, geometry, best, at)} :: at in inspected ==>
      Weighed(frame, boxes, obstacles, owner, geometry, best, at)
  }

  /** A better box weighs up everything the last one did. */
  lemma WeighedByBetter(frame: Frame, boxes: Outlines, obstacles: Outlines, owner: Name, geometry: Box, best: Option<Box>, more: Box, inspected: set<Point>)
    requires owner in boxes && AllWeighed(frame, boxes, obstacles, owner, geometry, best, inspected)
    requires best.Some? ==> !Better(ScoreOf(best.value, Anchor(frame)), ScoreOf(more, Anchor(frame)))
    ensures AllWeighed(frame, boxes, obstacles, owner, geometry, Some(more), inspected)
  {
    forall at | at in inspected
      ensures Weighed(frame, boxes, obstacles, owner, geometry, Some(more), at)
    {
      assert Weighed(frame, boxes, obstacles, owner, geometry, best, at);
    }
  }

  /** Starting from one place, at most six looks, each past the component that blocked the last. */
  method TryFrom(frame: Frame, boxes: Outlines, ghost obstacles: Outlines, owner: Name, geometry: Box, start: Point,
      index: Index, obstacleIndex: Index, inspected0: set<Point>, best0: Option<Box>) returns (inspected: set<Point>, best: Option<Box>)
    requires Indexed(index, obstacleIndex, boxes, obstacles) && AllProper(boxes) && owner in boxes
    requires BestSoFar(frame, boxes, obstacles, owner, geometry, best0)
    requires index.budget.truncated || AllWeighed(frame, boxes, obstacles, owner, geometry, best0, inspected0)
    modifies index.budget
    ensures BestSoFar(frame, boxes, obstacles, owner, geometry, best)
    ensures index.budget.truncated || AllWeighed(frame, boxes, obstacles, owner, geometry, best, inspected)
    ensures start in inspected && inspected0 <= inspected && (old(index.budget.truncated) ==> index.budget.truncated)
    ensures old(Spent(index.budget)) ==> Spent(index.budget)
  {
    inspected, best := inspected0, best0;
    var at := start;
    for look := 0 to 6
      invariant BestSoFar(frame, boxes, obstacles, owner, geometry, best) && best == best0
      invariant index.budget.truncated || AllWeighed(frame, boxes, obstacles, owner, geometry, best, inspected)
      invariant inspected0 <= inspected && (start in inspected || (look == 0 && at == start))
      invariant old(index.budget.truncated) ==> index.budget.truncated
      invariant old(Spent(index.budget)) ==> Spent(index.budget)
    {
      if at in inspected {
        return;
      }
      inspected := inspected + {at};
      var candidate := MovedTo(boxes[owner], at.x, at.y);
      if !Fits(frame, boxes[owner], geometry, candidate) {
        return;
      }
      var found := LookAt(frame, boxes, obstacles, owner, geometry, candidate, index, obstacleIndex);
      match found {
        case Abandon =>
          return;
        case Take =>
          if best.None? || Better(ScoreOf(candidate, Anchor(frame)), ScoreOf(best.value, Anchor(frame))) {
            if !index.budget.truncated {
              WeighedByBetter(frame, boxes, obstacles, owner, geometry, best, candidate, inspected - {at});
            }
            best := Some(candidate);
          }
          return;
        case PushPast(blocker) =>
          var next := Pushed(frame, boxes[owner], at, boxes[blocker]);
          if next.None? {
            return;
          }
          at := next.value;
      }
    }
  }

  /** The last places where the packed components left a corner. */
  function Recent(corners: seq<Point>): seq<Point> {
    if |corners| <= 32 then corners else corners[|corners| - 32..]
  }

  /** Where the search for a place starts. */
  function Starts(frame: Frame, b: Box, corners: seq<Point>): seq<Point> {
    [Point(frame.packing.left, b.top), Point(b.left, frame.packing.top)] + Recent(corners)
  }

  /** The best place among those tried, if any is acceptable; while the budget lasts, no start that is free would be better. */
  method Place(frame: Frame, boxes: Outlines, ghost obstacles: Outlines, owner: Name, geometry: Box, corners: seq<Point>,
      index: Index, obstacleIndex: Index) returns (best: Option<Box>)
    requires Indexed(index, obstacleIndex, boxes, obstacles) && AllProper(boxes) && owner in boxes
    modifies index.budget
    ensures BestSoFar(frame, boxes, obstacles, owner, geometry, best)
    ensures index.budget.truncated || forall at :: at in Starts(frame, boxes[owner], corners) ==>
      Weighed(frame, boxes, obstacles, owner, geometry, best, at)
    ensures old(Spent(index.budget)) ==> Spent(index.budget)
  {
    var options := Starts(frame, boxes[owner], corners);
    var inspected: set<Point> := {};
    best := None;
    for i := 0 to |options|
      invariant BestSoFar(frame, boxes, obstacles, owner, geometry, best)
      invariant index.budget.truncated || AllWeighed(frame, boxes, obstacles, owner, geometry, best, inspected)
      invariant forall j :: 0 <= j < i ==> options[j] in inspected
      invariant old(Spent(index.budget)) ==> Spent(index.budget)
    {
      inspected, best := TryFrom(frame, boxes, obstacles, owner, geometry, options[i], index, obstacleIndex, inspected, best);
    }
  }

  // ---------------------------------------------------------------------------
  // Carrying the contents along
  // ---------------------------------------------------------------------------

  type Membership = map<Name, set<Name>>

  /** No object belongs to two components. */
  ghost predicate Disjoint(groups: Membership) {
    forall a, b, k :: a in groups && b in groups && k in groups[a] && k in groups[b] ==> a == b
  }

  function Slide(p: Point, dx: real, dy: real): Point {
    Point(p.x + dx, p.y + dy)
  }

  function SlideAll(route: seq<Point>, dx: real, dy: real): seq<Point> {
    seq(|route|, i requires 0 <= i < |route| => Slide(route[i], dx, dy))
  }

  /** Shapes and connectors by component; a shape's route is its centre alone. */
  type Routes = map<Name, seq<Point>>

  /** Everything in a component has moved exactly as far as its envelope, and nothing else has moved. */
  ghost predicate Carried(groups: Membership, before: Outlines, after: Outlines, routes0: Routes, routes: Routes) {
    && (forall k :: k in routes <==> k in routes0)
    && (forall a, k :: a in groups && k in groups[a] && k in routes0 && k in routes && a in before && a in after ==>
          routes[k] == SlideAll(routes0[k], after[a].left - before[a].left, after[a].top - before[a].top))
    && (forall k :: k in routes0 && k in routes && (forall a :: a in groups ==> k !in groups[a]) ==> routes[k] == routes0[k])
  }

  method CarryOne(routes0: Routes, members: set<Name>, dx: real, dy: real) returns (routes: Routes)
    ensures forall k :: k in routes <==> k in routes0
    ensures forall k :: k in routes0 && k in routes ==> routes[k] == if k in members then SlideAll(routes0[k], dx, dy) else routes0[k]
  {
    routes := routes0;
    var todo := members;
    while todo != {}
      invariant todo <= members && forall k :: k in routes <==> k in routes0
      invariant forall k :: k in routes0 && k in routes ==>
        routes[k] == if k in members && k !in todo then SlideAll(routes0[k], dx, dy) else routes0[k]
      decreases todo
    {
      var k := Pick(todo);
      if k in routes {
        routes := routes[k := SlideAll(routes[k], dx, dy)];
      }
      todo := todo - {k};
    }
  }

  // ---------------------------------------------------------------------------
  // The whole packing
  // ---------------------------------------------------------------------------

  predicate Inside(b: Box, container: Box) {
    container.left <= b.left && container.top <= b.top && b.right <= container.right && b.bottom <= container.bottom
  }

  /** The least outline around all boxes. */
  ghost predicate Encloses(boxes: Outlines, packing: Box) {
    && (forall k :: k in boxes ==> Inside(boxes[k], packing))
    && (exists k :: k in boxes && packing.left == boxes[k].left)
    && (exists k :: k in boxes && packing.top == boxes[k].top)
    && (exists k :: k in boxes && packing.right == boxes[k].right)
    && (exists k :: k in boxes && packing.bottom == boxes[k].bottom)
  }

  function Around(a: Box, b: Box): Box {
    Box(if b.left < a.left then b.left else a.left, if b.top < a.top then b.top else a.top,
      if b.right > a.right then b.right else a.right, if b.bottom > a.bottom then b.bottom else a.bottom)
  }

  method Envelope(boxes: Outlines) returns (packing: Box)
    requires boxes.Keys != {}
    ensures Encloses(boxes, packing)
  {
    var first := Pick(boxes.Keys);
    packing := boxes[first];
    var todo := boxes.Keys - {first};
    while todo != {}
      invariant todo <= boxes.Keys
      invariant forall k :: k in boxes && k !in todo ==> Inside(boxes[k], packing)
      invariant exists k :: k in boxes && packing.left == boxes[k].left
      invariant exists k :: k in boxes && packing.top == boxes[k].top
      invariant exists k :: k in boxes && packing.right == boxes[k].right
      invariant exists k :: k in boxes && packing.bottom == boxes[k].bottom
      decreases todo
    {
      var k := Pick(todo);
      packing := Around(packing, boxes[k]);
      todo := todo - {k};
    }
  }

  /** A component that moved: rigidly, inside the outlines, to a better place, clear of the fee connectors. */
  ghost predicate MovedWell(frame: Frame, from: Box, to: Box, geometry: Box, obstacles: Outlines) {
    to == MovedTo(from, to.left, to.top) && Fits(frame, from, geometry, to) && ClearOfObstacles(obstacles, to)
  }

  /** A component that moved is the component spacing away from every other. */
  ghost predicate Spaced(boxes: Outlines, moved: set<Name>) {
    forall a, b :: a in boxes && b in boxes && a != b && (a in moved || b in moved) ==> SpacedApart(boxes[a], boxes[b])
  }

  /** What packing keeps, whichever components have moved so far. */
  ghost predicate Packing(frame: Frame, before: Outlines, after: Outlines, geometry: Outlines, obstacles: Outlines, moved: set<Name>) {
    && (forall k :: k in after <==> k in before)
    && AllProper(after)
    && (forall k :: k in before && k in after && k !in moved ==> after[k] == before[k])
    && (forall k :: k in moved ==> k in before && k in after && k in geometry && MovedWell(frame, before[k], after[k], geometry[k], obstacles))
    && Spaced(after, moved)
  }

  lemma SpacedStep(boxes: Outlines, moved: set<Name>, owner: Name, box: Box)
    requires Spaced(boxes, moved) && owner in boxes && ClearOfOthers(boxes, owner, box)
    ensures Spaced(boxes[owner := box], moved + {owner})
  {
    var next := boxes[owner := box];
    forall a, b | a in next && b in next && a != b && (a in moved + {owner} || b in moved + {owner})
      ensures SpacedApart(next[a], next[b])
    {
      if a == owner {
        assert SpacedApart(box, boxes[b]);
      } else if b == owner {
        UnblockedIsSpaced(box, boxes[a]);
      } else {
        assert SpacedApart(boxes[a], boxes[b]);
      }
    }
  }

  lemma PackingStep(frame: Frame, before: Outlines, after: Outlines, geometry: Outlines, obstacles: Outlines, moved: set<Name>,
      owner: Name, box: Box)
    requires Packing(frame, before, after, geometry, obstacles, moved) && owner in after && owner !in moved && owner in geometry
    requires Acceptable(frame, after, obstacles, owner, geometry[owner], box)
    ensures Packing(frame, before, after[owner := box], geometry, obstacles, moved + {owner})
  {
    SpacedStep(after, moved, owner, box);
    assert MovedWell(frame, before[owner], box, geometry[owner], obstacles);
    assert Proper(box);
  }

  lemma CarriedStart(groups: Membership, before: Outlines, routes: Routes)
    ensures Carried(groups, before, before, routes, routes)
  {
    forall k | k in routes
      ensures routes[k] == SlideAll(routes[k], 0.0, 0.0)
    {
    }
  }

  lemma CarriedStep(groups: Membership, before: Outlines, after: Outlines, routes0: Routes, routes: Routes, owner: Name, box: Box, next: Routes)
    requires Disjoint(groups) && Carried(groups, before, after, routes0, routes) && owner in groups
    requires owner in before && owner in after && after[owner] == before[owner]
    requires forall k :: k in next <==> k in routes
    requires forall k :: k in routes && k in next ==>
      next[k] == if k in groups[owner] then SlideAll(routes[k], box.left - after[owner].left, box.top - after[owner].top) else routes[k]
    ensures Carried(groups, before, after[owner := box], routes0, next)
  {
    var more := after[owner := box];
    forall a, k | a in groups && k in groups[a] && k in routes0 && k in next && a in before && a in more
      ensures next[k] == SlideAll(routes0[k], more[a].left - before[a].left, more[a].top - before[a].top)
    {
      if a == owner {
        assert routes[k] == SlideAll(routes0[k], 0.0, 0.0) == routes0[k];
      } else {
        assert k !in groups[owner];
      }
    }
    forall k | k in routes0 && k in next && (forall a :: a in groups ==> k !in groups[a])
      ensures next[k] == routes0[k]
    {
      assert k !in groups[owner];
    }
  }

  lemma AcceptKeeps(frame: Frame, before: Outlines, after: Outlines, geometry: Outlines, obstacles: Outlines, moved: set<Name>,
      owner: Name, box: Box, groups: Membership, routes0: Routes, routes: Routes, next: Routes)
    requires Packing(frame, before, after, geometry, obstacles, moved) && owner in after && owner !in moved && owner in geometry
    requires Acceptable(frame, after, obstacles, owner, geometry[owner], box) && owner in groups
    requires Disjoint(groups) && Carried(groups, before, after, routes0, routes)
    requires forall k :: k in next <==> k in routes
    requires forall k :: k in routes && k in next ==>
      next[k] == if k in groups[owner] then SlideAll(routes[k], box.left - after[owner].left, box.top - after[owner].top) else routes[k]
    ensures Packing(frame, before, after[owner := box], geometry, obstacles, moved + {owner})
    ensures Carried(groups, before, after[owner := box], routes0, next)
  {
    PackingStep(frame, before, after, geometry, obstacles, moved, owner, box);
    CarriedStep(groups, before, after, routes0, routes, owner, box, next);
  }

  /** Moves one component to its new place, with all that belongs to it. */
  method Accept(frame: Frame, ghost before: Outlines, after0: Outlines, ghost geometry: Outlines, ghost obstacles: Outlines,
      ghost moved: set<Name>, owner: Name, box: Box, groups: Membership, ghost routes0: Routes, routes1: Routes)
      returns (after: Outlines, routes: Routes)
    requires Packing(frame, before, after0, geometry, obstacles, moved)
    requires owner in after0 && owner !in moved && owner in geometry && owner in groups
    requires Acceptable(frame, after0, obstacles, owner, geometry[owner], box)
    requires Disjoint(groups) && Carried(groups, before, after0, routes0, routes1)
    ensures after == after0[owner := box] && Carried(groups, before, after, routes0, routes)
    ensures Packing(frame, before, after, geometry, obstacles, moved + {owner})
  {
    routes := CarryOne(routes1, groups[owner], box.left - after0[owner].left, box.top - after0[owner].top);
    AcceptKeeps(frame, before, after0, geometry, obstacles, moved, owner, box, groups, routes0, routes1, routes);
    after := after0[owner := box];
  }

  /** The component takes the best of the starting places that are free, or a better one still; it stays only if none is free. */
  ghost predicate BestTaken(frame: Frame, boxes: Outlines, after: Outlines, obstacles: Outlines, owner: Name, geometry: Box,
      corners: seq<Point>, accepted: bool)
    requires owner in boxes
  {
    exists best: Option<Box> :: best.Some? == accepted && after == (if best.Some? then boxes[owner := best.value] else boxes)
      && AllStartsWeighed(frame, boxes, obstacles, owner, geometry, corners, best)
  }

  ghost predicate AllStartsWeighed(frame: Frame, boxes: Outlines, obstacles: Outlines, owner: Name, geometry: Box, corners: seq<Point>, best: Option<Box>)
    requires owner in boxes
  {
    forall at :: at in Starts(frame, boxes[owner], corners) ==> Weighed(frame, boxes, obstacles, owner, geometry, best, at)
  }

  /** Tries to move one component. */
  method PackOne(frame: Frame, ghost before: Outlines, after0: Outlines, geometry: Outlines, ghost obstacles: Outlines, ghost moved: set<Name>,
      owner: Name, groups: Membership, ghost routes0: Routes, routes1: Routes, corners: seq<Point>, index: Index, obstacleIndex: Index)
      returns (accepted: bool, after: Outlines, routes: Routes)
    requires Packing(frame, before, after0, geometry, obstacles, moved) && Indexed(index, obstacleIndex, after0, obstacles)
    requires owner in after0 && owner !in moved && owner in geometry && owner in groups
    requires Disjoint(groups) && Carried(groups, before, after0, routes0, routes1)
    modifies index, index.budget
    ensures Indexed(index, obstacleIndex, after, obstacles) && Carried(groups, before, after, routes0, routes)
    ensures owner in after && Packing(frame, before, after, geometry, obstacles, if accepted then moved + {owner} else moved)
    ensures !accepted ==> after == after0 && routes == routes1
    ensures !accepted ==> index.budget.truncated || forall at :: at in Starts(frame, after0[owner], corners) ==>
      !Free(frame, after0, obstacles, owner, geometry[owner], MovedTo(after0[owner], at.x, at.y))
    ensures old(Spent(index.budget)) || index.budget.truncated
      || BestTaken(frame, after0, after, obstacles, owner, geometry[owner], corners, accepted)
    ensures old(Spent(index.budget)) ==> Spent(index.budget)
  {
    var best := Place(frame, after0, obstacles, owner, geometry[owner], corners, index, obstacleIndex);
    accepted, after, routes := best.Some?, after0, routes1;
    if best.Some? {
      after, routes := Accept(frame, before, after0, geometry, obstacles, moved, owner, best.value, groups, routes0, routes1);
      index.Add(owner, best.value);
    }
  }

  method Fill(index: Index, boxes: Outlines)
    requires index.Valid() && index.boxes == map[]
    modifies index
    ensures index.Valid() && index.boxes == boxes
  {
    var todo := boxes.Keys;
    while todo != {}
      invariant index.Valid() && todo <= boxes.Keys
      invariant forall k :: k in index.boxes <==> k in boxes && k !in todo
      invariant forall k :: k in index.boxes && k in boxes ==> index.boxes[k] == boxes[k]
      decreases todo
    {
      var k := Pick(todo);
      index.Add(k, boxes[k]);
      todo := todo - {k};
    }
    SameMap(index.boxes, boxes);
  }

  function Corners(b: Box): seq<Point> {
    [Point(b.right + COMPONENT_SPACING, b.top), Point(b.left, b.bottom + COMPONENT_SPACING)]
  }

  /** One turn: a fixed component stays, any other takes its best place. */
  ghost predicate TurnPacked(frame: Frame, boxes: Outlines, after: Outlines, obstacles: Outlines, geometry: Outlines, fixed: set<Name>,
      owner: Name, corners: seq<Point>, accepted: bool)
  {
    owner in boxes && owner in geometry
    && if owner in fixed then after == boxes && !accepted
      else BestTaken(frame, boxes, after, obstacles, owner, geometry[owner], corners, accepted)
  }

  /** The corners left by the components that had their turn. */
  function CornersBefore(frame: Frame, steps: seq<Outlines>, order: seq<Name>, fixed: set<Name>, n: nat): seq<Point>
    requires n <= |order| && n < |steps|
  {
    if n == 0 then [Anchor(frame)]
    else
      var owner := order[n - 1];
      CornersBefore(frame, steps, order, fixed, n - 1) + (if owner !in fixed && owner in steps[n] then Corners(steps[n][owner]) else [])
  }

  lemma {:induction false} CornersStay(frame: Frame, steps: seq<Outlines>, next: Outlines, order: seq<Name>, fixed: set<Name>, n: nat)
    requires n <= |order| && n < |steps|
    ensures CornersBefore(frame, steps + [next], order, fixed, n) == CornersBefore(frame, steps, order, fixed, n)
    decreases n
  {
    if n > 0 {
      CornersStay(frame, steps, next, order, fixed, n - 1);
    }
  }

  /** The first turns, each from one drawing to the next. */
  ghost predicate TurnsPacked(frame: Frame, steps: seq<Outlines>, obstacles: Outlines, geometry: Outlines, fixed: set<Name>, order: seq<Name>,
      moved: set<Name>, n: nat)
    requires n <= |order| && n < |steps|
  {
    forall i: nat :: i < n ==> PackedAt(frame, steps, obstacles, geometry, fixed, order, moved, i)
  }

  ghost predicate PackedAt(frame: Frame, steps: seq<Outlines>, obstacles: Outlines, geometry: Outlines, fixed: set<Name>, order: seq<Name>,
      moved: set<Name>, i: nat)
    requires i < |order| && i + 1 < |steps|
  {
    TurnPacked(frame, steps[i], steps[i + 1], obstacles, geometry, fixed, order[i], CornersBefore(frame, steps, order, fixed, i), order[i] in moved)
  }

  lemma TurnsPackedGrow(frame: Frame, steps: seq<Outlines>, next: Outlines, obstacles: Outlines, geometry: Outlines, fixed: set<Name>,
      order: seq<Name>, moved: set<Name>, accepted: bool, n: nat)
    requires n < |order| && |steps| == n + 1 && Distinct(order) && order[n] !in moved
    requires TurnsPacked(frame, steps, obstacles, geometry, fixed, order, moved, n)
    requires TurnPacked(frame, steps[n], next, obstacles, geometry, fixed, order[n], CornersBefore(frame, steps, order, fixed, n), accepted)
    ensures TurnsPacked(frame, steps + [next], obstacles, geometry, fixed, order, if accepted then moved + {order[n]} else moved, n + 1)
  {
    var more, after := steps + [next], if accepted then moved + {order[n]} else moved;
    forall i: nat | i < n + 1
      ensures PackedAt(frame, more, obstacles, geometry, fixed, order, after, i)
    {
      CornersStay(frame, steps, next, order, fixed, i);
      if i < n {
        assert PackedAt(frame, steps, obstacles, geometry, fixed, order, moved, i);
      }
    }
  }

  lemma CornersGrow(frame: Frame, steps: seq<Outlines>, next: Outlines, order: seq<Name>, fixed: set<Name>, n: nat)
    requires n < |order| && |steps| == n + 1
    ensures CornersBefore(frame, steps + [next], order, fixed, n + 1) == CornersBefore(frame, steps, order, fixed, n)
      + (if order[n] !in fixed && order[n] in next then Corners(next[order[n]]) else [])
  {
    CornersStay(frame, steps, next, order, fixed, n);
  }

  /** A fixed component stays, and once the budget is spent every other does too. */
  method PackTurn(frame: Frame, ghost before: Outlines, after0: Outlines, geometry: Outlines, ghost obstacles: Outlines, ghost moved: set<Name>,
      fixed: set<Name>, owner: Name, groups: Membership, ghost routes0: Routes, routes1: Routes, corners: seq<Point>,
      index: Index, obstacleIndex: Index) returns (considered: bool, accepted: bool, after: Outlines, routes: Routes)
    requires Packing(frame, before, after0, geometry, obstacles, moved) && Indexed(index, obstacleIndex, after0, obstacles)
    requires owner in after0 && owner !in moved && owner in geometry && owner in groups
    requires Disjoint(groups) && Carried(groups, before, after0, routes0, routes1)
    modifies index, index.budget
    ensures Indexed(index, obstacleIndex, after, obstacles) && Carried(groups, before, after, routes0, routes)
    ensures owner in after && Packing(frame, before, after, geometry, obstacles, if accepted then moved + {owner} else moved)
    ensures considered <==> owner !in fixed && old(index.budget.remaining) >= 0
    ensures accepted ==> considered
    ensures Spent(index.budget) || TurnPacked(frame, after0, after, obstacles, geometry, fixed, owner, corners, accepted)
    ensures old(Spent(index.budget)) ==> Spent(index.budget)
  {
    considered := owner !in fixed && index.budget.remaining >= 0;
    accepted, after, routes := false, after0, routes1;
    if considered {
      accepted, after, routes := PackOne(frame, before, after0, geometry, obstacles, moved, owner, groups, routes0, routes1, corners, index, obstacleIndex);
    }
  }

  lemma PackingStart(frame: Frame, before: Outlines, geometry: Outlines, obstacles: Outlines)
    requires AllProper(before)
    ensures Packing(frame, before, before, geometry, obstacles, {})
  {
  }

  ghost predicate OnceEach(order: seq<Name>, boxes: Outlines) {
    Distinct(order) && forall k :: k in order <==> k in boxes
  }

  /** Fixed components stay, and when the budget is spent all the rest do. */
  method PackInOrder(frame: Frame, before: Outlines, geometry: Outlines, ghost obstacles: Outlines, fixed: set<Name>, order: seq<Name>,
      groups: Membership, routes0: Routes, index: Index, obstacleIndex: Index)
      returns (after: Outlines, routes: Routes, moved: set<Name>, ghost steps: seq<Outlines>)
    requires AllProper(before) && Disjoint(groups) && groups.Keys == before.Keys && geometry.Keys == before.Keys
    requires OnceEach(order, before) && Indexed(index, obstacleIndex, before, obstacles)
    modifies index, index.budget
    ensures Packing(frame, before, after, geometry, obstacles, moved) && moved !! fixed
    ensures Carried(groups, before, after, routes0, routes)
    ensures |steps| == |order| + 1 && steps[0] == before && steps[|order|] == after
    ensures Spent(index.budget) || TurnsPacked(frame, steps, obstacles, geometry, fixed, order, moved, |order|)
  {
    after, routes, moved, steps := before, routes0, {}, [before];
    PackingStart(frame, before, geometry, obstacles);
    CarriedStart(groups, before, routes0);
    var corners := [Anchor(frame)];
    for i := 0 to |order|
      invariant Packing(frame, before, after, geometry, obstacles, moved) && moved !! fixed
      invariant Indexed(index, obstacleIndex, after, obstacles)
      invariant Carried(groups, before, after, routes0, routes)
      invariant forall j :: i <= j < |order| ==> order[j] !in moved
      invariant |steps| == i + 1 && steps[0] == before && steps[i] == after
      invariant Spent(index.budget) || corners == CornersBefore(frame, steps, order, fixed, i)
      invariant Spent(index.budget) || TurnsPacked(frame, steps, obstacles, geometry, fixed, order, moved, i)
    {
      var owner := order[i];
      assert owner in order;
      var accepted, considered;
      considered, accepted, after, routes :=
        PackTurn(frame, before, after, geometry, obstacles, moved, fixed, owner, groups, routes0, routes, corners, index, obstacleIndex);
      if !Spent(index.budget) {
        TurnsPackedGrow(frame, steps, after, obstacles, geometry, fixed, order, moved, accepted, i);
        CornersGrow(frame, steps, after, order, fixed, i);
      }
      steps := steps + [after];
      if accepted {
        moved := moved + {owner};
      }
      if considered {
        corners := corners + Corners(after[owner]);
      }
    }
  }

  /** Packs the components in the given order; the source goes from the top. */
  method PackComponents(before: Outlines, geometry: Outlines, obstacles: Outlines, fixed: set<Name>, order: seq<Name>, groups: Membership,
      routes0: Routes, bounds: Option<Box>, budget: Budget)
      returns (after: Outlines, routes: Routes, moved: set<Name>, frame: Option<Frame>, ghost steps: seq<Outlines>)
    requires AllProper(before) && Disjoint(groups) && groups.Keys == before.Keys && geometry.Keys == before.Keys
    requires OnceEach(order, before)
    modifies budget
    ensures frame.None? <==> |before.Keys| < 2 || bounds.None?
    ensures frame.None? ==> after == before && routes == routes0 && moved == {}
    ensures frame.Some? ==> bounds.Some? && frame.value.bounds == bounds.value && Encloses(before, frame.value.packing)
    ensures frame.Some? ==> Packing(frame.value, before, after, geometry, obstacles, moved) && moved !! fixed
    ensures frame.Some? ==> Carried(groups, before, after, routes0, routes)
    ensures frame.Some? ==> |steps| == |order| + 1 && steps[0] == before && steps[|order|] == after
    ensures frame.Some? && !Spent(budget) ==> TurnsPacked(frame.value, steps, obstacles, geometry, fixed, order, moved, |order|)
  {
    if |before.Keys| < 2 || bounds.None? {
      return before, routes0, {}, None, [];
    }
    var packing := Envelope(before);
    var index := new Index(budget);
    Fill(index, before);
    var obstacleIndex := new Index(budget);
    Fill(obstacleIndex, obstacles);
    frame := Some(Frame(packing, bounds.value));
    after, routes, moved, steps := PackInOrder(frame.value, before, geometry, obstacles, fixed, order, groups, routes0, index, obstacleIndex);
  }

  /** Packing creates no new closeness, and stays inside the original outline. */
  lemma NoNewCloseness(frame: Frame, before: Outlines, after: Outlines, geometry: Outlines, obstacles: Outlines, moved: set<Name>, a: Name, b: Name)
    requires Encloses(before, frame.packing) && Packing(frame, before, after, geometry, obstacles, moved)
    requires a in before && b in before && a != b
    ensures a in after && b in after && Within(after[a], frame.packing)
    ensures SpacedApart(after[a], after[b]) || (after[a] == before[a] && after[b] == before[b])
    ensures Touch(after[a], after[b]) ==> Touch(before[a], before[b])
  {
    if a in moved {
      assert MovedWell(frame, before[a], after[a], geometry[a], obstacles);
    }
    if a in moved || b in moved {
      assert SpacedApart(after[a], after[b]);
    }
  }
}
