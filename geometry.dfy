// Shared 3D value types: the parts of three.js's Vector3 and Matrix4 that the
// core uses, with exact real arithmetic in place of 32/64-bit floats.
module Geometry {

  datatype Vec3 = Vec3(x: real, y: real, z: real)

  datatype Axis = X | Y | Z

  function Coord(v: Vec3, a: Axis): real
  {
    match a
    case X => v.x
    case Y => v.y
    case Z => v.z
  }

  function Add(a: Vec3, b: Vec3): Vec3
  {
    Vec3(a.x + b.x, a.y + b.y, a.z + b.z)
  }

  function Abs(r: real): (a: real)
    ensures a >= 0.0 && (a == r || a == -r)
  {
    if r < 0.0 then -r else r
  }

  /** Math.min. */
  function Min(a: real, b: real): (m: real)
    ensures m <= a && m <= b && (m == a || m == b)
  {
    if a <= b then a else b
  }

  /** Math.max. */
  function Max(a: real, b: real): (m: real)
    ensures m >= a && m >= b && (m == a || m == b)
  {
    if a >= b then a else b
  }

  /** Linear interpolation `a + (b - a) * t`, as in Vector3.lerp and SlowmoEffect.lerp. */
  function Lerp(a: real, b: real, t: real): real
  {
    a + (b - a) * t
  }

  lemma LerpEnds(a: real, b: real)
    ensures Lerp(a, b, 0.0) == a && Lerp(a, b, 1.0) == b
  {
  }

  /** For t in [0,1] the interpolant lies between its two ends. */
  lemma LerpBetween(a: real, b: real, t: real)
    requires 0.0 <= t <= 1.0
    ensures a <= b ==> a <= Lerp(a, b, t) <= b
    ensures b <= a ==> b <= Lerp(a, b, t) <= a
  {
    NonNegProduct(b - a, t);
    NonNegProduct(b - a, 1.0 - t);
    NonNegProduct(a - b, t);
    NonNegProduct(a - b, 1.0 - t);
  }

  // Sign facts about products and quotients, for the nonlinear steps the
  // solver does not find on its own.

  lemma NonNegProduct(p: real, q: real)
    ensures p >= 0.0 && q >= 0.0 ==> p * q >= 0.0
  {
  }

  lemma PositiveProduct(p: real, q: real)
    ensures p > 0.0 && q > 0.0 ==> p * q > 0.0
  {
  }

  lemma DivideNonNegative(a: real, d: real)
    requires d > 0.0 && a >= 0.0
    ensures a / d >= 0.0
  {
  }

  lemma SignOfFactor(a: real, b: real)
    requires b > 0.0 && a * b >= 0.0
    ensures a >= 0.0
  {
  }

  lemma PositiveFactor(a: int, b: int)
    requires b > 0 && a * b > 0
    ensures a > 0
  {
  }

  /**
   * An affine map of 3-space: a 3x3 linear part and a translation. This is
   * a mesh's world matrix (a Matrix4 whose bottom row is 0 0 0 1), kept
   * abstract: any entries are allowed.
   */
  datatype Affine = Affine(
    m00: real, m01: real, m02: real,
    m10: real, m11: real, m12: real,
    m20: real, m21: real, m22: real,
    t: Vec3)

  function Identity(): Affine
  {
    Affine(1.0, 0.0, 0.0, 0.0, 1.0, 0.0, 0.0, 0.0, 1.0, Vec3(0.0, 0.0, 0.0))
  }

  /** Vector3.applyMatrix4 for an affine matrix (the w divisor is 1). */
  function Apply(m: Affine, v: Vec3): Vec3
  {
    Vec3(m.m00 * v.x + m.m01 * v.y + m.m02 * v.z + m.t.x,
         m.m10 * v.x + m.m11 * v.y + m.m12 * v.z + m.t.y,
         m.m20 * v.x + m.m21 * v.y + m.m22 * v.z + m.t.z)
  }

  lemma ApplyIdentity(v: Vec3)
    ensures Apply(Identity(), v) == v
  {
  }

  /** The mean of a triangle's three corners. */
  function Centroid(a: Vec3, b: Vec3, c: Vec3): Vec3
  {
    Vec3((a.x + b.x + c.x) / 3.0, (a.y + b.y + c.y) / 3.0, (a.z + b.z + c.z) / 3.0)
  }

  /** The centroid moves with the triangle and does not depend on corner order. */
  lemma CentroidProperties(a: Vec3, b: Vec3, c: Vec3, d: Vec3)
    ensures Centroid(Add(a, d), Add(b, d), Add(c, d)) == Add(Centroid(a, b, c), d)
    ensures Centroid(a, b, c) == Centroid(b, c, a) == Centroid(b, a, c)
    ensures Centroid(a, a, a) == a
  {
  }

  /** In a non-indexed triangle list, the centroid of the triangle vertex v belongs to. */
  function TriangleCentroid(positions: seq<Vec3>, v: nat): Vec3
    requires |positions| % 3 == 0 && v < |positions|
  {
    var first := v - v % 3;
    Centroid(positions[first], positions[first + 1], positions[first + 2])
  }

  /** The three components stored for item v of a flat xyz buffer (a BufferAttribute of item size 3). */
  function Vec3At(a: array<real>, v: nat): Vec3
    requires 3 * v + 3 <= a.Length
    reads a
  {
    Vec3(a[3 * v], a[3 * v + 1], a[3 * v + 2])
  }

  /** Writes item v of a flat xyz buffer and leaves every other item as it was. */
  method SetVec3At(a: array<real>, v: nat, c: Vec3)
    requires 3 * v + 3 <= a.Length
    modifies a
    ensures Vec3At(a, v) == c
    ensures forall w: nat :: 3 * w + 3 <= a.Length && w != v ==> Vec3At(a, w) == old(Vec3At(a, w))
  {
    a[3 * v], a[3 * v + 1], a[3 * v + 2] := c.x, c.y, c.z;
  }

  /** A scene-graph node whose position the animation loop may move (Object3D.position). */
  class Object3D {
    var position: Vec3

    constructor (position: Vec3)
      ensures this.position == position
    {
      this.position := position;
    }
  }
}
