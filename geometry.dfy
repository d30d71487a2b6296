/**
 * Axis-aligned boxes as the game uses them for every hit test: the player's
 * fixed hitbox against the obstacle and against each collectible.  Boxes are
 * `java.awt.Rectangle` values built from integer coordinates; only
 * `Rectangle.intersects` is used.
 */
module Geometry {

  /** A box with its top-left corner at (x, y), screen y growing downwards. */
  datatype Rect = Rect(x: int, y: int, w: int, h: int)

  /** The pixel (px, py) lies inside the half-open box `r`. */
  predicate Covers(r: Rect, px: int, py: int)
  {
    r.x <= px < r.x + r.w && r.y <= py < r.y + r.h
  }

  /**
   * `Rectangle.intersects`: a box with a non-positive side meets nothing;
   * otherwise the two boxes overlap on both axes (touching edges do not count).
   * Java's 32-bit overflow guard is not modelled: every coordinate in the game
   * is a small screen coordinate.
   */
  predicate Intersects(a: Rect, b: Rect)
  {
    && a.w > 0 && a.h > 0 && b.w > 0 && b.h > 0
    && b.x < a.x + a.w && b.y < a.y + a.h
    && a.x < b.x + b.w && a.y < b.y + b.h
  }

  function Max(a: int, b: int): int { if a < b then b else a }

  /** Two boxes intersect exactly when some pixel lies in both of them. */
  lemma IntersectsIffSharedPixel(a: Rect, b: Rect)
    ensures Intersects(a, b) <==> exists px, py :: Covers(a, px, py) && Covers(b, px, py)
  {
    if Intersects(a, b) {
      var px, py := Max(a.x, b.x), Max(a.y, b.y);
      assert Covers(a, px, py) && Covers(b, px, py);
    }
  }

  /**
   * Java's `(int)` cast of a non-integral coordinate held in tenths of a
   * pixel: it truncates toward zero, unlike Dafny's `/` on negatives.
   */
  function TruncTenths(t: int): (px: int)
    ensures t >= 0 ==> 0 <= px && px * 10 <= t < px * 10 + 10
    ensures t < 0 ==> px <= 0 && px * 10 - 10 < t <= px * 10
  {
    if t >= 0 then t / 10 else -((-t) / 10)
  }
}
