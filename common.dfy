/** Value types shared by the agent and motor models: the engine's vectors,
    optional query results, and the movement wish a controller writes into a
    character motor. */
module Common {

  /** The answer of an engine query that may find nothing (a NavMesh sample,
      a ray hit). */
  datatype Option<T> = None | Some(value: T)

  datatype Vec3 = Vec3(x: real, y: real, z: real)

  datatype Vec2 = Vec2(x: real, y: real)

  const Zero3 := Vec3(0.0, 0.0, 0.0)

  const Up := Vec3(0.0, 1.0, 0.0)

  function Add(a: Vec3, b: Vec3): Vec3 {
    Vec3(a.x + b.x, a.y + b.y, a.z + b.z)
  }

  function Sub(a: Vec3, b: Vec3): Vec3 {
    Vec3(a.x - b.x, a.y - b.y, a.z - b.z)
  }

  function Scale(a: Vec3, k: real): Vec3 {
    Vec3(a.x * k, a.y * k, a.z * k)
  }

  function SqrMagnitude(v: Vec3): real {
    v.x * v.x + v.y * v.y + v.z * v.z
  }

  function SqrMagnitude2(v: Vec2): real {
    v.x * v.x + v.y * v.y
  }

  /** `(a - b).sqrMagnitude < threshold * threshold`: every "close enough"
      test of the scripts, written without a square root. */
  predicate Within(a: Vec3, b: Vec3, threshold: real) {
    SqrMagnitude(Sub(a, b)) < threshold * threshold
  }

  /** A motor's MoveWish. Normalising a vector takes a square root, so the
      model keeps the direction symbolic: what was normalised, and which
      steering force (SteeringMethods.Seek toward `toward` from `from`, its
      vertical part zeroed, normalised and scaled by `gain`) was added to the
      prior wish before it was normalised again; `YawRotated` is a vector
      turned about the vertical axis by a yaw in degrees. */
  datatype Wish =
    | Raw(v: Vec3)
    | Normalized(v: Vec3)
    | Steered(prior: Wish, from: Vec3, toward: Vec3, gain: real)
    | YawRotated(yaw: real, v: Vec3)
}
