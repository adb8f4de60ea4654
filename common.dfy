/** Values shared by every part of the portal model: optional references,
    three- and two-component vectors over the reals, opaque quaternions and
    the identifiers of engine objects the model never looks inside. */
module Common {

  /** A possibly-null reference. */
  datatype Option<+T> = None | Some(value: T)

  /** Identifies a `Portal` component; its geometry stays on the engine side. */
  type PortalId = nat

  /** A Unity `Vector3`; single-precision floats are modelled as reals. */
  datatype Vec3 = Vec3(x: real, y: real, z: real)

  /** A Unity `Vector2`. */
  datatype Vec2 = Vec2(x: real, y: real)

  /** A Unity `Quaternion`; the model never computes with its components. */
  datatype Quat = Quat(x: real, y: real, z: real, w: real)

  /** What a `Matrix4x4` built from a transform yields: its position,
      its rotation and its lossy scale. */
  datatype Pose = Pose(position: Vec3, rotation: Quat, scale: Vec3)

  const Zero: Vec3 := Vec3(0.0, 0.0, 0.0)

  function Add(a: Vec3, b: Vec3): Vec3
  {
    Vec3(a.x + b.x, a.y + b.y, a.z + b.z)
  }

  function Sub(a: Vec3, b: Vec3): (r: Vec3)
    ensures Add(r, b) == a
  {
    Vec3(a.x - b.x, a.y - b.y, a.z - b.z)
  }

  function Scale(a: Vec3, k: real): Vec3
  {
    Vec3(a.x * k, a.y * k, a.z * k)
  }

  function Abs(x: real): (r: real)
    ensures r >= 0.0 && (r == x || r == -x)
  {
    if x < 0.0 then -x else x
  }

  function Max(a: real, b: real): (r: real)
    ensures r >= a && r >= b && (r == a || r == b)
  {
    if a < b then b else a
  }

  /** True when no element of `s` occurs twice. */
  predicate NoDuplicates<T(==)>(s: seq<T>)
  {
    forall i, j :: 0 <= i < j < |s| ==> s[i] != s[j]
  }
}
