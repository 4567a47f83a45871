/**
 * The hitbox test of the simulation step (checkCollision): both rectangles are shrunk by a
 * fixed buffer before their intervals are compared, except the first rectangle's bottom edge,
 * which is compared unshrunk.
 */
module Collision {
  import opened Types
  import opened Constants

  /** checkCollision(rect1, rect2). */
  predicate Collides(r1: Rect, r2: Rect)
  {
    && r1.x + HITBOX_BUFFER < r2.x + r2.width - HITBOX_BUFFER
    && r1.x + r1.width - HITBOX_BUFFER > r2.x + HITBOX_BUFFER
    && r1.y + HITBOX_BUFFER < r2.y + r2.height - HITBOX_BUFFER
    && r1.y + r1.height > r2.y + HITBOX_BUFFER
  }

  /** The plain (unshrunk) axis-aligned overlap of two rectangles. */
  predicate Intersect(r1: Rect, r2: Rect)
  {
    && r1.x < r2.x + r2.width && r2.x < r1.x + r1.width
    && r1.y < r2.y + r2.height && r2.y < r1.y + r1.height
  }

  /** The forgiving hitbox only ever reports a hit where the two rectangles really overlap. */
  lemma CollidesWithinBoxes(r1: Rect, r2: Rect)
    requires Collides(r1, r2)
    ensures Intersect(r1, r2)
  {
  }

  /**
   * The test is not symmetric. The second rectangle is shrunk on all four sides, the first
   * keeps its bottom edge: a first rectangle 15 units high still reaches past the other's
   * top buffer, while as the second argument the same rectangle shrinks to nothing vertically.
   */
  lemma CollidesIsAsymmetric()
    ensures Collides(Rect(0.0, 0.0, 100.0, 15.0), Rect(0.0, 0.0, 100.0, 100.0))
    ensures !Collides(Rect(0.0, 0.0, 100.0, 100.0), Rect(0.0, 0.0, 100.0, 15.0))
  {
  }
}
