/** Axis-aligned rectangles and the shrunken-hitbox overlap test used for every hit. */
module Geometry {

  /** A rectangle given by its top-left corner and its size, in canvas units (y grows downwards). */
  datatype Rect = Rect(x: real, y: real, width: real, height: real)

  /** Each side of a rectangle is inset by 20% of its length, keeping the centred 60%. */
  const HITBOX_INSET: real := 0.2
  const HITBOX_SCALE: real := 0.6

  function CentreX(r: Rect): real { r.x + r.width / 2.0 }
  function CentreY(r: Rect): real { r.y + r.height / 2.0 }

  function Abs(v: real): real { if v < 0.0 then -v else v }

  /** The smaller hitbox the game tests instead of the drawn rectangle. */
  function Hitbox(r: Rect): (h: Rect)
    ensures CentreX(h) == CentreX(r) && CentreY(h) == CentreY(r)
  {
    Rect(r.x + r.width * HITBOX_INSET, r.y + r.height * HITBOX_INSET,
         r.width * HITBOX_SCALE, r.height * HITBOX_SCALE)
  }

  /** Strict interval overlap on both axes: edges that only touch do not overlap. */
  predicate Overlap(h1: Rect, h2: Rect) {
    && h1.x < h2.x + h2.width
    && h1.x + h1.width > h2.x
    && h1.y < h2.y + h2.height
    && h1.y + h1.height > h2.y
  }

  /**
   * Two objects collide when their hitboxes overlap. Because the hitboxes are
   * centred, this is the same as the centres being closer, on each axis, than
   * 30% of the two sizes added together.
   */
  function CheckCollision(a: Rect, b: Rect): (hit: bool)
    ensures hit <==> && Abs(CentreX(a) - CentreX(b)) < 0.3 * (a.width + b.width)
                     && Abs(CentreY(a) - CentreY(b)) < 0.3 * (a.height + b.height)
  {
    var h1 := Hitbox(a);
    var h2 := Hitbox(b);
    Overlap(h1, h2)
  }

  /** The order of the two arguments does not matter. */
  lemma CollisionSymmetric(a: Rect, b: Rect)
    ensures CheckCollision(a, b) == CheckCollision(b, a)
  {
  }

  /** Hitboxes that only share an edge do not collide, on either axis. */
  lemma TouchingHitboxesMiss(a: Rect, b: Rect)
    requires var h1, h2 := Hitbox(a), Hitbox(b);
             || h1.x + h1.width == h2.x || h2.x + h2.width == h1.x
             || h1.y + h1.height == h2.y || h2.y + h2.height == h1.y
    ensures !CheckCollision(a, b)
  {
  }

  /** A rectangle collides with a copy of itself exactly when it has positive area. */
  lemma SelfCollision(a: Rect)
    ensures CheckCollision(a, a) <==> a.width > 0.0 && a.height > 0.0
  {
  }
}
