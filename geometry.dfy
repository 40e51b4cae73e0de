/**
 * The engine's math value types, and the floating-point geometry the game calls
 * but does not define (cylinder raycasts, disc pushes, sector tests, basis
 * vectors, normalisation, square roots). The latter is a record of total
 * functions, `EngineMath`, that every operation needing it takes as a
 * parameter; nothing about it is assumed beyond what each caller states.
 * Floats are modelled as exact reals.
 */
module Geometry {

  import opened ActorUIDs

  datatype Vec2 = Vec2(x: real, y: real)

  datatype Vec3 = Vec3(x: real, y: real, z: real)
  {
    /** GetXY */
    function XY(): Vec2 { Vec2(x, y) }
    function Plus(o: Vec3): Vec3 { Vec3(x + o.x, y + o.y, z + o.z) }
    function Minus(o: Vec3): Vec3 { Vec3(x - o.x, y - o.y, z - o.z) }
    function Times(s: real): Vec3 { Vec3(x * s, y * s, z * s) }
  }

  const ZERO3: Vec3 := Vec3(0.0, 0.0, 0.0)
  const SKYWARD: Vec3 := Vec3(0.0, 0.0, 1.0)
  const GROUNDWARD: Vec3 := Vec3(0.0, 0.0, -1.0)

  /** Vec2::ToVec3: the vector in the horizontal plane. */
  function ToVec3(v: Vec2): Vec3 { Vec3(v.x, v.y, 0.0) }

  function Minus2(a: Vec2, b: Vec2): Vec2 { Vec2(a.x - b.x, a.y - b.y) }

  /** Vec2::GetLengthSquared */
  function LengthSquared2D(v: Vec2): (r: real)
    ensures r >= 0.0
  {
    v.x * v.x + v.y * v.y
  }

  /** GetDistanceSquared2D */
  function DistanceSquared2D(a: Vec2, b: Vec2): (r: real)
    ensures r >= 0.0
    ensures r == LengthSquared2D(Minus2(a, b))
  {
    LengthSquared2D(Minus2(a, b))
  }

  /** Yaw, pitch and roll in degrees. */
  datatype EulerAngles = EulerAngles(yaw: real, pitch: real, roll: real)

  datatype IntVec2 = IntVec2(x: int, y: int)
  {
    function Plus(o: IntVec2): IntVec2 { IntVec2(x + o.x, y + o.y) }
  }

  datatype AABB2 = AABB2(mins: Vec2, maxs: Vec2)

  datatype FloatRange = FloatRange(min: real, max: real)

  const ZERO_RANGE: FloatRange := FloatRange(0.0, 0.0)

  /** The largest finite single-precision float, FLT_MAX. */
  const FLT_MAX: real := 340282346638528859811704183484516925440.0

  /** GetClamped */
  function Clamp(v: real, lo: real, hi: real): (r: real)
    requires lo <= hi
    ensures lo <= r <= hi
    ensures lo <= v <= hi ==> r == v
  {
    if v < lo then lo else if v > hi then hi else v
  }

  /** RoundDownToInt */
  function RoundDown(v: real): (r: int)
    ensures r as real <= v < r as real + 1.0
  {
    v.Floor
  }

  /** Interpolate(a, b, t) */
  function Lerp(a: Vec3, b: Vec3, t: real): Vec3
  {
    a.Plus(b.Minus(a).Times(t))
  }

  /** An upright cylinder: the centres of its bottom and top discs and its radius. */
  datatype Cylinder = Cylinder(bottom: Vec3, top: Vec3, radius: real)

  /** RaycastResult3D: the parts of it the game reads. */
  datatype RayHit = RayHit(didImpact: bool, impactDistance: real, impactPosition: Vec3, impactNormal: Vec3)

  /**
   * DoomRaycastResult: a 3D raycast result plus the UID of the actor hit,
   * INVALID when the ray stopped at a wall, floor or ceiling or hit nothing.
   */
  datatype DoomRaycastResult = DoomRaycastResult(
    didImpact: bool,
    impactDistance: real,
    impactPosition: Vec3,
    impactNormal: Vec3,
    impactActorUID: ActorUID)

  /**
   * DoomRaycastResult(): no impact and no actor. The engine's defaults for the
   * distance and the vectors are not visible; they are taken as zero.
   */
  const NO_IMPACT: DoomRaycastResult := DoomRaycastResult(false, 0.0, ZERO3, ZERO3, ActorUID.INVALID)

  /** DoomRaycastResult(RaycastResult3D const&): copies the hit, no actor. */
  function FromRayHit(h: RayHit): (r: DoomRaycastResult)
    ensures r.impactActorUID == ActorUID.INVALID
    ensures r.didImpact == h.didImpact && r.impactDistance == h.impactDistance
  {
    DoomRaycastResult(h.didImpact, h.impactDistance, h.impactPosition, h.impactNormal, ActorUID.INVALID)
  }

  /** The engine functions the game calls on floats; each is a total function. */
  datatype EngineMath = EngineMath(
    /** DoZCylindersOverlap */
    cylindersOverlap: (Cylinder, Cylinder) -> bool,
    /** RaycastVsCylinder3D(start, forward, maxDistance, cylinder) */
    raycastVsCylinder: (Vec3, Vec3, real, Cylinder) -> RayHit,
    /** TileHeatMap::Raycast over the solid map, for the given heat values */
    raycastVsSolidMap: (seq<real>, Vec3, Vec3, real) -> RayHit,
    /** PushDiscsOutOfEachOther2D: both centres after the push */
    pushDiscsOutOfEachOther: (Vec2, real, Vec2, real) -> (Vec2, Vec2),
    /** PushDiscOutOfFixedDisc2D(mobile, mobileRadius, fixed, fixedRadius): the mobile centre after */
    pushDiscOutOfFixedDisc: (Vec2, real, Vec2, real) -> Vec2,
    /** PushDiscOutOfFixedAABB2: whether it pushed, and the centre after */
    pushDiscOutOfFixedBox: (Vec2, real, AABB2) -> (bool, Vec2),
    /** IsPointInsideDirectedSector2D(point, tip, forward, apertureDegrees, radius) */
    insideSector: (Vec2, Vec2, Vec2, real, real) -> bool,
    /** IsPointInsideDisc2D(point, centre, radius) */
    insideDisc: (Vec2, Vec2, real) -> bool,
    /** IsPointInsideAABB2 */
    insideBox: (Vec2, AABB2) -> bool,
    /** The i, j and k basis vectors of EulerAngles::GetAsMatrix_iFwd_jLeft_kUp */
    forwardOf: EulerAngles -> Vec3,
    leftOf: EulerAngles -> Vec3,
    upOf: EulerAngles -> Vec3,
    /** Vec3::GetNormalized and Vec2::GetNormalized */
    normalized: Vec3 -> Vec3,
    normalized2: Vec2 -> Vec2,
    /** GetDistance3D (a square root) */
    distance3D: (Vec3, Vec3) -> real,
    /** GetAngleDegreesBetweenVectors2D */
    angleBetween: (Vec2, Vec2) -> real,
    /** Vec2::GetOrientationDegrees */
    orientationDegrees: Vec2 -> real,
    /** GetTurnedTowardDegrees(current, goal, maxDelta) */
    turnedToward: (real, real, real) -> real)

  /**
   * What the game relies on from GetTurnedTowardDegrees: given a budget
   * that is not negative, the heading either lands on the goal or moves by
   * at most the budget.
   */
  ghost predicate TurnsWithin(em: EngineMath)
  {
    forall current: real, goal: real, maxDelta: real :: maxDelta >= 0.0 ==>
      var t := em.turnedToward(current, goal, maxDelta);
      t == goal || (current - maxDelta <= t <= current + maxDelta)
  }
}
