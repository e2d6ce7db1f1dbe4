/** Integer rectangles as the game library keeps them, and the overlap test
    every variant of the platformer uses for collisions. */
module Geometry {

  /** Window size shared by every variant. */
  const Width: int := 800
  const Height: int := 600

  /** Width and height of an image, which fixes the size of a sprite's rectangle. */
  datatype Size = Size(w: int, h: int)

  /** An axis-aligned rectangle: top-left corner, width and height, all integers. */
  datatype Rect = Rect(x: int, y: int, w: int, h: int) {
    function Right(): int { x + w }
    function Bottom(): int { y + h }
  }

  /** A rectangle of the given size with its top-left corner at (x, y). */
  function At(x: int, y: int, size: Size): (r: Rect)
    ensures r.x == x && r.y == y && r.w == size.w && r.h == size.h
  {
    Rect(x, y, size.w, size.h)
  }

  /** Strict overlap of the interiors: rectangles that only touch do not collide. */
  predicate Collides(a: Rect, b: Rect) {
    a.x < b.Right() && b.x < a.Right() && a.y < b.Bottom() && b.y < a.Bottom()
  }

  /** Assigning the bottom edge moves the rectangle vertically and keeps its size. */
  function WithBottom(r: Rect, bottom: int): (s: Rect)
    ensures s.Bottom() == bottom
    ensures s.x == r.x && s.w == r.w && s.h == r.h
  {
    r.(y := bottom - r.h)
  }

  /** A rectangle whose bottom rests exactly on another's top does not overlap it. */
  lemma RestingDoesNotCollide(r: Rect, plat: Rect)
    requires r.Bottom() == plat.y
    ensures !Collides(r, plat)
  {
  }

  /** The overlap test does not depend on which rectangle asks. */
  lemma CollidesSymmetric(a: Rect, b: Rect)
    ensures Collides(a, b) <==> Collides(b, a)
  {
  }
}
