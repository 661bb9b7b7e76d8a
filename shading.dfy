/** Depth of a point from the fixed camera, and the glyph that depth is shaded with. */
module Shading {
  import opened Space

  /** Distance at which the intensity reaches zero. */
  const MaxDist: real := 30.0

  /** The five glyphs, from faintest to densest. */
  const Glyphs: set<char> := {'.', '+', '*', '#', '='}

  function Abs(r: real): (a: real)
    ensures a >= 0.0 && (a == r || a == -r)
  {
    if r < 0.0 then -r else r
  }

  /** Distance along the viewing axis from the camera to `p`. */
  function GetDepth(p: Vec3): (d: real)
    ensures d >= 0.0
    ensures d == p.z + 10.0 || d == -(p.z + 10.0)
  {
    Abs(p.z - Camera.z)
  }

  /**
   * The glyph for a depth: the intensity 1 - depth/MaxDist (not clamped)
   * is compared against 0.2, 0.4, 0.6 and 0.8 in turn. In depth terms the
   * bands are (24, oo), (18, 24], (12, 18], (6, 12] and (-oo, 6].
   */
  function GetLineChar(depth: real): (c: char)
    ensures c in Glyphs
    ensures c == '=' <==> depth <= 6.0
    ensures c == '#' <==> 6.0 < depth <= 12.0
    ensures c == '*' <==> 12.0 < depth <= 18.0
    ensures c == '+' <==> 18.0 < depth <= 24.0
    ensures c == '.' <==> 24.0 < depth
  {
    var intensity := 1.0 - depth / MaxDist;
    if intensity < 0.2 then '.'
    else if intensity < 0.4 then '+'
    else if intensity < 0.6 then '*'
    else if intensity < 0.8 then '#'
    else '='
  }

  /** How dense a glyph is: '.' < '+' < '*' < '#' < '='. */
  function Density(c: char): (n: nat)
    ensures c in Glyphs <==> n > 0
    ensures n <= 5
  {
    match c
    case '.' => 1
    case '+' => 2
    case '*' => 3
    case '#' => 4
    case '=' => 5
    case _ => 0
  }

  /** A farther point is never drawn with a denser glyph than a nearer one. */
  lemma ShadingMonotone(d1: real, d2: real)
    requires d1 <= d2
    ensures Density(GetLineChar(d2)) <= Density(GetLineChar(d1))
  {
  }

  /** Sample values: the camera's own depth, mid-range, and everything beyond the last band. */
  lemma ShadingSamples(far: real)
    requires far > 24.0
    ensures GetLineChar(0.0) == '='
    ensures GetLineChar(15.0) == '*'
    ensures GetLineChar(30.0) == '.'
    ensures GetLineChar(far) == '.'
  {
  }
}
