/** Model-space points and the two-axis rotation applied to them every frame. */
module Space {

  /** A point of model space (the source's Vector3D). */
  datatype Vec3 = Vec3(x: real, y: real, z: real)

  /** The camera sits at a fixed position on the z axis; only its z is ever used. */
  const Camera: Vec3 := Vec3(0.0, 0.0, -10.0)

  /**
   * The numeric primitives the model cannot compute over `real`:
   * `sin` and `cos` of an angle, and the perspective factor of a depth
   * coordinate (the source's `VIEW_DISTANCE / (z + VIEW_DISTANCE)`).
   */
  datatype Numerics = Numerics(sin: real -> real, cos: real -> real, perspective: real -> real)

  function SquaredLength(p: Vec3): real
  {
    p.x * p.x + p.y * p.y + p.z * p.z
  }

  /**
   * Rotation of `p`: first the x/z mix by `ay`, then the y/z mix by `ax`,
   * in this order, with the sines and cosines taken from `num`.
   */
  function RotatePoint(p: Vec3, ax: real, ay: real, num: Numerics): (r: Vec3)
    ensures num.sin(ax) == 0.0 && num.cos(ax) == 1.0 && num.sin(ay) == 0.0 && num.cos(ay) == 1.0 ==> r == p
  {
    var sx, cx := num.sin(ax), num.cos(ax);
    var sy, cy := num.sin(ay), num.cos(ay);
    var x1 := p.x * cy + p.z * sy;
    var z1 := -p.x * sy + p.z * cy;
    var y2 := p.y * cx - z1 * sx;
    var z2 := p.y * sx + z1 * cx;
    Vec3(x1, y2, z2)
  }

  /**
   * Mixing the coordinates a and b of one plane by a unit (cos, sin) pair
   * keeps their squared length.
   */
  lemma PlaneMixKeepsLength(a: real, b: real, s: real, c: real)
    requires s * s + c * c == 1.0
    ensures (a * c + b * s) * (a * c + b * s) + (b * c - a * s) * (b * c - a * s) == a * a + b * b
  {
    var u, v, w, t := a * c, b * s, b * c, a * s;
    assert u * v == w * t;
    assert u * u + t * t == a * a * (c * c + s * s);
    assert v * v + w * w == b * b * (s * s + c * c);
  }

  /**
   * When the supplied sines and cosines satisfy sin^2 + cos^2 = 1 at both
   * angles, RotatePoint is rigid: it keeps the distance from the origin.
   */
  lemma RotationIsRigid(p: Vec3, ax: real, ay: real, num: Numerics)
    requires num.sin(ax) * num.sin(ax) + num.cos(ax) * num.cos(ax) == 1.0
    requires num.sin(ay) * num.sin(ay) + num.cos(ay) * num.cos(ay) == 1.0
    ensures SquaredLength(RotatePoint(p, ax, ay, num)) == SquaredLength(p)
  {
    var sx, cx := num.sin(ax), num.cos(ax);
    var sy, cy := num.sin(ay), num.cos(ay);
    var z1 := -p.x * sy + p.z * cy;
    // the x/z mix by ay, then the y/z mix by ax
    PlaneMixKeepsLength(p.x, p.z, sy, cy);
    PlaneMixKeepsLength(z1, p.y, sx, cx);
    var r := RotatePoint(p, ax, ay, num);
    assert r.x * r.x + z1 * z1 == p.x * p.x + p.z * p.z;
    assert r.z * r.z + r.y * r.y == z1 * z1 + p.y * p.y;
  }
}
