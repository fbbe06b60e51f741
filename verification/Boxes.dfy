/** Axis-parallel boxes, compared with a small tolerance. */
module Boxes {
  import opened Measures

  datatype Box = Box(left: real, top: real, right: real, bottom: real)

  predicate Proper(b: Box) {
    b.left <= b.right && b.top <= b.bottom
  }

  predicate Holds(b: Box, x: real, y: real) {
    b.left <= x <= b.right && b.top <= y <= b.bottom
  }

  /** The two boxes have a point in common. */
  ghost predicate Meet(a: Box, b: Box) {
    exists x: real, y: real :: Holds(a, x, y) && Holds(b, x, y)
  }

  function Expand(b: Box, amount: real): Box {
    Box(b.left - amount, b.top - amount, b.right + amount, b.bottom + amount)
  }

  function Move(b: Box, dx: real, dy: real): Box {
    Box(b.left + dx, b.top + dy, b.right + dx, b.bottom + dy)
  }

  /** The interiors overlap by more than the tolerance. */
  predicate Touch(a: Box, b: Box) {
    a.left < b.right - EPSILON && b.left < a.right - EPSILON && a.top < b.bottom - EPSILON && b.top < a.bottom - EPSILON
  }

  /** The boxes meet, or miss each other by no more than the tolerance. */
  predicate Near(a: Box, b: Box) {
    a.left <= b.right + EPSILON && b.left <= a.right + EPSILON && a.top <= b.bottom + EPSILON && b.top <= a.bottom + EPSILON
  }

  predicate Within(b: Box, container: Box) {
    b.left >= container.left - EPSILON && b.top >= container.top - EPSILON
    && b.right <= container.right + EPSILON && b.bottom <= container.bottom + EPSILON
  }

  /** Proper boxes that touch meet. */
  lemma TouchMeets(a: Box, b: Box)
    requires Touch(a, b) && Proper(a) && Proper(b)
    ensures Meet(a, b)
  {
    var x := if a.left <= b.left then b.left else a.left;
    var y := if a.top <= b.top then b.top else a.top;
    assert Holds(a, x, y) && Holds(b, x, y);
  }
}
