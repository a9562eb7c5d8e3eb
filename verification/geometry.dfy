/** Axis-aligned rectangles on the rendering surface, shared by the
    character hit test and the game-card click regions. */
module Geometry {

  /** A rectangle given by its top-left corner and its size (y grows
      downwards, as on a canvas). Both edges belong to the box. */
  datatype Box = Box(left: real, top: real, width: real, height: real) {

    predicate Contains(px: real, py: real) {
      left <= px <= left + width && top <= py <= top + height
    }
  }

  /** The two boxes are separated by a strictly positive gap along one axis. */
  predicate Apart(a: Box, b: Box) {
    a.left + a.width < b.left || b.left + b.width < a.left ||
    a.top + a.height < b.top || b.top + b.height < a.top
  }

  /** Separated boxes share no point, so a click lands in at most one of them. */
  lemma ApartShareNoPoint(a: Box, b: Box, px: real, py: real)
    requires Apart(a, b)
    ensures !(a.Contains(px, py) && b.Contains(px, py))
  {
  }
}
