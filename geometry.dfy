/** Vectors and the axis remap into the KITTI Velodyne frame.

    Camera-relative coordinates use the game's vehicle axes: x to the right,
    y forward, z up. The point records use the KITTI Velodyne axes: x forward,
    y to the left, z up. */
module Geometry {

  datatype Vec3 = Vec3(x: real, y: real, z: real)

  /** A screen position; both coordinates are 0 at the top-left corner and 1 at the
      bottom-right corner when the position is on screen. */
  datatype Vec2 = Vec2(u: real, v: real)

  function Add(a: Vec3, b: Vec3): Vec3 {
    Vec3(a.x + b.x, a.y + b.y, a.z + b.z)
  }

  function Sub(a: Vec3, b: Vec3): Vec3 {
    Vec3(a.x - b.x, a.y - b.y, a.z - b.z)
  }

  function Neg(a: Vec3): Vec3 {
    Vec3(-a.x, -a.y, -a.z)
  }

  function Scale(a: Vec3, k: real): Vec3 {
    Vec3(a.x * k, a.y * k, a.z * k)
  }

  function Dot(a: Vec3, b: Vec3): real {
    a.x * b.x + a.y * b.y + a.z * b.z
  }

  /** The squared length of a vector (the argument of every distance's square root). */
  function NormSq(a: Vec3): (r: real)
    ensures r >= 0.0
  {
    a.x * a.x + a.y * a.y + a.z * a.z
  }

  /** The remap from camera axes into KITTI Velodyne axes: (x, y, z) becomes
      (y, -x, z). */
  function Kitti(a: Vec3): Vec3 {
    Vec3(a.y, -a.x, a.z)
  }

  /** The inverse remap, from a stored record back to camera axes. */
  function FromKitti(r: Vec3): Vec3 {
    Vec3(-r.y, r.x, r.z)
  }

  /** The remap loses nothing: the camera-relative point is recovered from the
      record, and the record's coordinates determine the point. */
  lemma KittiRoundTrip(a: Vec3, r: Vec3)
    ensures FromKitti(Kitti(a)) == a
    ensures Kitti(FromKitti(r)) == r
    ensures Kitti(a) == r <==> a == FromKitti(r)
  {
  }

  /** The remap is a rotation about the vertical axis: it keeps every length, so a
      range test made before the remap holds of the stored record. */
  lemma KittiKeepsLength(a: Vec3)
    ensures NormSq(Kitti(a)) == NormSq(a)
    ensures Kitti(a).z == a.z
    ensures Kitti(Kitti(a)) == Neg(Vec3(a.x, a.y, -a.z))
  {
  }

  lemma NegKeepsLength(a: Vec3)
    ensures NormSq(Neg(a)) == NormSq(a)
    ensures Neg(Neg(a)) == a
  {
  }

  /** A fraction t in [0, 1] of a non-negative amount lies between 0 and the amount. */
  lemma {:induction false} ScaleWithin(t: real, d: real)
    requires 0.0 <= t <= 1.0 && 0.0 <= d
    ensures 0.0 <= t * d <= d
  {
    assert d - t * d == (1.0 - t) * d;
  }
}
