/** Perspective projection onto the character grid, with its bounds test and off-screen sentinel. */
module Projection {
  import opened Space
  import opened Shading

  /** A projected point (the source's Point2D): a cell, its glyph and the depth it came from. */
  datatype Point2D = Point2D(x: int, y: int, c: char, depth: real)

  /** What an off-screen point projects to: Point2D(-1, -1) with the default glyph and depth. */
  const Sentinel: Point2D := Point2D(-1, -1, '#', 0.0)

  /** Conversion of a real to an integer by truncation toward zero, as a C++ cast does. */
  function Trunc(r: real): (i: int)
    ensures 0.0 <= r ==> 0 <= i && i as real <= r < i as real + 1.0
    ensures r < 0.0 ==> i <= 0 && i as real - 1.0 < r <= i as real
  {
    if r >= 0.0 then r.Floor else -((-r).Floor)
  }

  /** The screen column before truncation: x scaled twice as wide, offset by half the width. */
  function ScreenX(p: Vec3, scale: real, width: nat): real
  {
    p.x * scale * 2.0 + (width / 2) as real
  }

  /** The screen row before truncation. */
  function ScreenY(p: Vec3, scale: real, height: nat): real
  {
    p.y * scale + (height / 2) as real
  }

  /** Whether cell (x, y) lies on a grid of `width` columns and `height` rows. */
  predicate InGrid(x: int, y: int, width: nat, height: nat)
  {
    0 <= x < width && 0 <= y < height
  }

  predicate OnScreen(q: Point2D, width: nat, height: nat)
  {
    InGrid(q.x, q.y, width, height)
  }

  /**
   * Projection of a rotated point, given its perspective factor `scale`: either an
   * on-screen point carrying the point's depth and the glyph for it, or the sentinel.
   */
  function Project(p: Vec3, scale: real, width: nat, height: nat): (q: Point2D)
    ensures q == Sentinel || (OnScreen(q, width, height) && q.depth == GetDepth(p) && q.c == GetLineChar(GetDepth(p)))
    ensures q != Sentinel <==> InGrid(Trunc(ScreenX(p, scale, width)), Trunc(ScreenY(p, scale, height)), width, height)
    ensures q != Sentinel ==> q.x == Trunc(ScreenX(p, scale, width)) && q.y == Trunc(ScreenY(p, scale, height))
    ensures q.x == -1 <==> q == Sentinel
  {
    var x := Trunc(ScreenX(p, scale, width));
    var y := Trunc(ScreenY(p, scale, height));
    var depth := GetDepth(p);
    if x >= 0 && x < width && y >= 0 && y < height then Point2D(x, y, GetLineChar(depth), depth)
    else Sentinel
  }

  /**
   * Because the cast truncates toward zero, a coordinate lands in [0, n)
   * exactly when the real value before the cast lies in (-1, n):
   * values in (-1, 0) become column or row 0 rather than being dropped.
   */
  lemma TruncInRange(r: real, n: nat)
    ensures 0 <= Trunc(r) < n <==> 0 < n && -1.0 < r < n as real
  {
  }

  /** The bounds test, stated on the real coordinates before truncation. */
  lemma ProjectOnScreenIff(p: Vec3, scale: real, width: nat, height: nat)
    ensures Project(p, scale, width, height) != Sentinel <==>
      0 < width && -1.0 < ScreenX(p, scale, width) < width as real &&
      0 < height && -1.0 < ScreenY(p, scale, height) < height as real
  {
  }

  /** A point whose column before the cast is -0.5 is kept in column 0, not dropped. */
  lemma ProjectTruncatesTowardZero()
    ensures Project(Vec3(-20.25, 0.0, 0.0), 1.0, 80, 24) == Point2D(0, 12, '#', 10.0)
  {
  }
}
