/** Lengths shared by the layouts, and the tolerance of their comparisons. */
module Measures {
  const EPSILON := 0.000001
  const COMPONENT_SPACING := 120.0
}
