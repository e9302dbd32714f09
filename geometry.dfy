/**
 * Axis-aligned bounding boxes and the game's collision test (checkCollision).
 * Every sprite on the canvas (invader, defender, bomb, missile) is compared through
 * its top-left corner and its size, in canvas pixels.
 */
module Geometry {

  datatype Box = Box(x: int, y: int, width: int, height: int)

  /**
   * checkCollision: the two boxes overlap on both axes, each comparison strict.
   * Overlapping needs at least two pixels of width and of height between the two boxes.
   */
  function Collides(a: Box, b: Box): (r: bool)
    ensures r ==> a.width + b.width >= 2 && a.height + b.height >= 2
  {
    a.x < b.x + b.width &&
    a.x + a.width > b.x &&
    a.y < b.y + b.height &&
    a.y + a.height > b.y
  }

  /** The pixel (px, py) lies in the half-open box [x, x + width) by [y, y + height). */
  predicate Contains(b: Box, px: int, py: int) {
    b.x <= px < b.x + b.width && b.y <= py < b.y + b.height
  }

  /** The test does not depend on the order of its arguments. */
  lemma CollidesSymmetric(a: Box, b: Box)
    ensures Collides(a, b) == Collides(b, a)
  {
  }

  /** Two boxes that share a pixel collide, whatever their sizes. */
  lemma SharedPixelCollides(a: Box, b: Box, px: int, py: int)
    requires Contains(a, px, py) && Contains(b, px, py)
    ensures Collides(a, b)
  {
  }

  /**
   * For boxes of positive size, colliding is exactly sharing a pixel: the comparison
   * of edges agrees with the pixel-set definition of overlap.
   */
  lemma CollidesIffSharedPixel(a: Box, b: Box)
    requires a.width > 0 && a.height > 0 && b.width > 0 && b.height > 0
    ensures Collides(a, b) <==> exists px, py :: Contains(a, px, py) && Contains(b, px, py)
  {
    if Collides(a, b) {
      var px := if a.x < b.x then b.x else a.x;
      var py := if a.y < b.y then b.y else a.y;
      assert Contains(a, px, py) && Contains(b, px, py);
    }
  }

  /** Two boxes that are both flat on the same axis never collide. */
  lemma FlatBoxesNeverCollide(a: Box, b: Box)
    requires (a.width <= 0 && b.width <= 0) || (a.height <= 0 && b.height <= 0)
    ensures !Collides(a, b)
  {
  }

  /**
   * A box of size zero is not inert: a zero-size box whose corner lies strictly
   * inside another box collides with it.
   */
  lemma EmptyBoxInsideCollides()
    ensures Collides(Box(5, 5, 0, 0), Box(0, 0, 10, 10))
  {
  }
}
