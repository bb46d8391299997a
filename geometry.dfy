/** Rectangles of the play-field and the overlap test used by every collision check. */
module Geometry {

  /** The layout box of a rendered element, in whole pixels: left and top edge, width, height. */
  datatype Box = Box(left: int, top: int, width: int, height: int)

  /** A box whose extent is not negative, as every rendered element's is. */
  predicate WellFormed(b: Box) {
    b.width >= 0 && b.height >= 0
  }

  /** The point (x, y) lies in the closed rectangle of `b` (edges included). */
  predicate Covers(b: Box, x: int, y: int) {
    b.left <= x <= b.left + b.width && b.top <= y <= b.top + b.height
  }

  /** The game's overlap test: two boxes collide unless one lies strictly above,
      below, left or right of the other. */
  predicate IsColliding(a: Box, b: Box) {
    !(a.top + a.height < b.top ||
      a.top > b.top + b.height ||
      a.left + a.width < b.left ||
      a.left > b.left + b.width)
  }

  function Max(x: int, y: int): int {
    if x < y then y else x
  }

  /** The order of the two arguments does not matter. */
  lemma CollidingSymmetric(a: Box, b: Box)
    ensures IsColliding(a, b) == IsColliding(b, a)
  {
  }

  /** The test is exactly "the two closed rectangles share a point": boxes that only
      touch along an edge or at a corner collide. */
  lemma CollidingIffSharedPoint(a: Box, b: Box)
    requires WellFormed(a) && WellFormed(b)
    ensures IsColliding(a, b) <==> exists x, y :: Covers(a, x, y) && Covers(b, x, y)
  {
    if IsColliding(a, b) {
      var x, y := Max(a.left, b.left), Max(a.top, b.top);
      assert Covers(a, x, y) && Covers(b, x, y);
    }
  }
}
