/** What the sensor takes from outside its own code: the game engine's queries,
    the maths library, the shared camera parameters and the build-time constants.

    Engine queries and transcendental functions are uninterpreted: each is a
    function-valued field, so the model holds for whatever the engine answers. */
module Engine {
  import opened Geometry

  /** The result of one ray cast: whether it hit, where, and which entity. */
  datatype RayHit = RayHit(isHit: bool, endCoord: Vec3, hitEntity: int)

  /** What the engine reports about one entity. */
  datatype EntityInfo = EntityInfo(
    position: Vec3,        // the entity's origin in world coordinates
    velocity: Vec3,        // its speed vector
    isPed: bool,
    pedType: int,
    isVehicle: bool,
    vehicleStopped: bool,
    pedStopped: bool,
    matrixForward: Vec3,   // forward axis of its entity matrix
    matrixPosition: Vec3,  // position of its entity matrix
    displayName: string    // display name of its vehicle model
  )

  /** The engine and maths-library functions the scan calls. */
  datatype Natives = Natives(
    sin: real -> real,
    cos: real -> real,
    sqrt: real -> real,
    atan2: (real, real) -> real,
    /** ray cast from a point to a point, ignoring one entity, with the caller's flags */
    castRay: (Vec3, Vec3, int, int) -> RayHit,
    /** projection of a world point onto the screen */
    project: Vec3 -> Vec2,
    /** world offset to camera-relative vehicle axes, for the current camera axes */
    toCamera: Vec3 -> Vec3,
    /** camera-relative vehicle axes back to world coordinates */
    camToWorld: Vec3 -> Vec3,
    groundZ: Vec3 -> real,
    entity: int -> EntityInfo,
    /** orientation quaternion (x, y, z, w) of an entity */
    quaternion: int -> (real, real, real, real),
    /** the vehicle the player's ped sits in */
    ownVehicle: int
  )

  /** The shared camera parameters the sampler and the writer read. */
  datatype CamParams = CamParams(width: int, height: int, pos: Vec3)

  /** The number of floats in one point record: x, y, z and four channels. Record
      offsets are written as `7 * k` with the literal, which keeps the offset
      arithmetic linear for the verifier. */
  const FloatsPerPoint: int := 7

  /** Build-time constants and switches. */
  datatype Build = Build(
    maxPoints: int,          // capacity, in floats, of the 3D buffers
    maxLidarDist: real,      // range filter for stored points
    d2r: real,               // degrees to radians
    useRaycasting: bool,
    generate2DPointmap: bool,
    outputDepthStats: bool,
    outputRaycastPoints: bool,
    obtainRayPointsHit: bool,
    gaussianNoise: bool
  )
}
