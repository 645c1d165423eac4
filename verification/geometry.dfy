/**
 Points of the 3D scene and the axis-aligned steps between them that the
 square and cube outlines are made of. A three.js `Vector3` is modelled as a
 plain triple of reals.
 */
module Geometry {

  /** A scene position: the x, y and z coordinates of a `Vector3`. */
  datatype Point3 = Point3(x: real, y: real, z: real)

  /** The scene origin `(0, 0, 0)`. */
  const Origin: Point3 := Point3(0.0, 0.0, 0.0)

  /** The three axes of the scene; also the names of the point form's fields. */
  datatype Axis = X | Y | Z

  /** The coordinate of `p` along axis `a`. */
  function Coord(p: Point3, a: Axis): real {
    match a
    case X => p.x
    case Y => p.y
    case Z => p.z
  }

  /** True iff a real has no fractional part. */
  predicate IsInt(v: real) {
    v.Floor as real == v
  }

  /** `b` lies `len` away from `a`, in either direction. */
  predicate Apart(a: real, b: real, len: real) {
    b - a == len || a - b == len
  }

  /** `q` is `p` moved by `len` along one axis, the other two coordinates
      kept: one edge of an axis-aligned square of side `len`. For
      `len != 0` exactly one coordinate changes (`AxisStepMovesOneCoord`). */
  predicate AxisStep(p: Point3, q: Point3, len: real) {
    || (Apart(p.x, q.x, len) && p.y == q.y && p.z == q.z)
    || (p.x == q.x && Apart(p.y, q.y, len) && p.z == q.z)
    || (p.x == q.x && p.y == q.y && Apart(p.z, q.z, len))
  }

  /** The squared Euclidean distance between two points. */
  function DistSq(p: Point3, q: Point3): real {
    (q.x - p.x) * (q.x - p.x) + (q.y - p.y) * (q.y - p.y) + (q.z - p.z) * (q.z - p.z)
  }

  /** The number of coordinates in which `p` and `q` differ. */
  function DifferingCoords(p: Point3, q: Point3): (n: nat)
    ensures n <= 3
    ensures n == 0 <==> p == q
  {
    (if p.x != q.x then 1 else 0) + (if p.y != q.y then 1 else 0) + (if p.z != q.z then 1 else 0)
  }

  /** An axis step of length `len` is an edge of Euclidean length `|len|`. */
  lemma AxisStepLength(p: Point3, q: Point3, len: real)
    requires AxisStep(p, q, len)
    ensures DistSq(p, q) == len * len
  {
  }

  /** A non-degenerate axis step changes exactly one coordinate. */
  lemma AxisStepMovesOneCoord(p: Point3, q: Point3, len: real)
    requires AxisStep(p, q, len)
    requires len != 0.0
    ensures DifferingCoords(p, q) == 1
  {
  }
}
