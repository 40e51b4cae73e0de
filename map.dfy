/**
 * Map: the tile grid, the actor slot array with its handle registry, the
 * controllers, and the map's queries (raycasts and target search).
 *
 * Actors live in `actors`, the `m_actors` vector of Actor pointers: None is a
 * null slot. A slot index stands for an Actor pointer. The AI controllers
 * are `ais` (`m_aiControllers`) and the single Player controller is
 * `player`; a controller pointer is a CtlRef. The same class models the gold
 * map (`isGold`), which overrides the wall raycast, floor collision, actor
 * deletion and update, and adds static actors and the wave counters.
 */
module Maps {

  import opened Wrappers
  import opened ActorUIDs
  import opened Geometry
  import opened WeaponDefinitions
  import opened ActorDefinitions
  import opened Tiles
  import opened Weapons
  import opened Actors
  import opened Controllers
  import opened ActorSlots

  /** StaticActor: the collision cylinder of a cliff, tree or rock of the gold map. */
  datatype StaticActor = StaticActor(position: Vec3, physicsRadius: real, physicsHeight: real)

  /** A raycast request: start position, forward normal and maximum distance. */
  datatype Ray = Ray(start: Vec3, forward: Vec3, maxDistance: real)

  /** IsActorAlive: the slot holds an actor that is not dead. */
  predicate IsActorAlive(o: Option<Actor>)
  {
    o.Some? && !o.value.isDead
  }

  /**
   * Map::GetActorByUID over a given slot array: the slot the handle's index
   * names, provided it holds the actor with exactly that handle; nothing
   * for the sentinel.
   */
  function Resolve(s: seq<Option<Actor>>, uid: ActorUID): (r: Option<nat>)
    ensures r.Some? <==>
      uid != ActorUID.INVALID && uid.GetIndex() < |s| && s[uid.GetIndex()].Some? && s[uid.GetIndex()].value.uid == uid
    ensures r.Some? ==> r.value == uid.GetIndex()
  {
    if uid == ActorUID.INVALID then None
    else
      var index := uid.GetIndex();
      if index < |s| && s[index].Some? && s[index].value.uid == uid then Some(index) else None
  }

  /** IsOwner(a, b): b has an owner, and it is a. */
  predicate IsOwner(a: Actor, b: Actor)
  {
    b.ownerUID != ActorUID.INVALID && b.ownerUID == a.uid
  }

  /** The raycast result before anything is hit: no impact, at the full distance, no actor. */
  function Unhit(maxDistance: real): DoomRaycastResult
  {
    DoomRaycastResult(false, maxDistance, ZERO3, ZERO3, ActorUID.INVALID)
  }

  /** The cylinder RaycastVsActors tests: up from the actor's position along its up vector. */
  function RayCylinder(em: EngineMath, a: Actor): Cylinder
  {
    Cylinder(a.position, a.position.Plus(em.upOf(a.orientation).Times(a.physicsHeight)), a.physicsRadius)
  }

  /** The ray's hit on the actor in slot k. */
  function HitOn(em: EngineMath, s: seq<Option<Actor>>, k: nat, ray: Ray): RayHit
    requires k < |s| && s[k].Some?
  {
    em.raycastVsCylinder(ray.start, ray.forward, ray.maxDistance, RayCylinder(em, s[k].value))
  }

  /** RaycastVsActors can stop at slot k: a live actor, not the excluded one, hit within the distance. */
  predicate ActorHittable(em: EngineMath, s: seq<Option<Actor>>, k: nat, exclude: Option<nat>, ray: Ray)
    requires k < |s|
  {
    Some(k) != exclude && IsActorAlive(s[k]) &&
    HitOn(em, s, k, ray).didImpact && HitOn(em, s, k, ray).impactDistance < ray.maxDistance
  }

  /** Slot k is hittable, and no hittable slot before `n` is nearer, nor equally near and earlier. */
  predicate FirstNearestActor(em: EngineMath, s: seq<Option<Actor>>, k: nat, n: nat, exclude: Option<nat>, ray: Ray)
    requires k < n <= |s|
  {
    ActorHittable(em, s, k, exclude, ray) &&
    forall j :: 0 <= j < n && ActorHittable(em, s, j, exclude, ray) ==>
      HitOn(em, s, k, ray).impactDistance <= HitOn(em, s, j, ray).impactDistance &&
      (j < k ==> HitOn(em, s, k, ray).impactDistance < HitOn(em, s, j, ray).impactDistance)
  }

  /** The slot RaycastVsActors settles on after examining slots 0 to n-1. */
  function NearestActor(em: EngineMath, s: seq<Option<Actor>>, exclude: Option<nat>, ray: Ray, n: nat): (r: Option<nat>)
    requires n <= |s|
    ensures r.Some? ==> r.value < n && FirstNearestActor(em, s, r.value, n, exclude, ray)
    ensures r.None? ==> forall j :: 0 <= j < n ==> !ActorHittable(em, s, j, exclude, ray)
  {
    if n == 0 then None
    else
      var previous := NearestActor(em, s, exclude, ray, n - 1);
      var bound := if previous.Some? then HitOn(em, s, previous.value, ray).impactDistance else ray.maxDistance;
      var k := n - 1;
      if Some(k) != exclude && IsActorAlive(s[k]) &&
         HitOn(em, s, k, ray).didImpact && HitOn(em, s, k, ray).impactDistance < bound
      then Some(k)
      else previous
  }

  /** The result RaycastVsActors returns after examining slots 0 to n-1. */
  function ActorRaycast(em: EngineMath, s: seq<Option<Actor>>, exclude: Option<nat>, ray: Ray, n: nat): (r: DoomRaycastResult)
    requires n <= |s|
    ensures r.impactDistance <= ray.maxDistance
    ensures r.didImpact <==> exists j :: 0 <= j < n && ActorHittable(em, s, j, exclude, ray)
    ensures !r.didImpact ==> r == Unhit(ray.maxDistance)
    ensures r.didImpact ==> r.impactActorUID == s[NearestActor(em, s, exclude, ray, n).value].value.uid
  {
    match NearestActor(em, s, exclude, ray, n)
    case None => Unhit(ray.maxDistance)
    case Some(k) => FromRayHit(HitOn(em, s, k, ray)).(impactActorUID := s[k].value.uid)
  }

  /** The floor test of both wall raycasts: a downward ray meets z = 0 unless that is behind it. */
  function ClipToFloor(r: DoomRaycastResult, ray: Ray): (c: DoomRaycastResult)
    ensures c.impactDistance <= r.impactDistance
    ensures ray.forward.z >= 0.0 ==> c == r
    ensures c != r ==> c.didImpact && c.impactNormal == SKYWARD && c.impactDistance == FloorDistance(ray)
    ensures c.impactActorUID == r.impactActorUID
    ensures r.didImpact ==> c.didImpact
    ensures !r.didImpact && ray.forward.z < 0.0 ==> (c.didImpact <==> FloorDistance(ray) < r.impactDistance)
  {
    if ray.forward.z < 0.0 && FloorDistance(ray) < r.impactDistance
    then r.(didImpact := true, impactDistance := FloorDistance(ray), impactNormal := SKYWARD)
    else r
  }

  /** Where a downward ray meets the floor; FLT_MAX when the floor lies behind the start. */
  function FloorDistance(ray: Ray): real
    requires ray.forward.z < 0.0
  {
    var d := -ray.start.z / ray.forward.z;
    if d < 0.0 then FLT_MAX else d
  }

  /** The ceiling test of the tile map's wall raycast: an upward ray meets z = 1 unless that is behind it. */
  function ClipToCeiling(r: DoomRaycastResult, ray: Ray): (c: DoomRaycastResult)
    ensures c.impactDistance <= r.impactDistance
    ensures ray.forward.z <= 0.0 ==> c == r
    ensures c != r ==> c.didImpact && c.impactNormal == GROUNDWARD
    ensures c.impactActorUID == r.impactActorUID
    ensures r.didImpact ==> c.didImpact
  {
    if ray.forward.z > 0.0 then
      var d := (1.0 - ray.start.z) / ray.forward.z;
      var distance := if d < 0.0 then FLT_MAX else d;
      if distance < r.impactDistance
      then r.(didImpact := true, impactDistance := distance, impactNormal := GROUNDWARD)
      else r
    else r
  }

  /** The impact position of a finished wall raycast: along the ray by the impact distance. */
  function AtImpact(r: DoomRaycastResult, ray: Ray): DoomRaycastResult
  {
    r.(impactPosition := ray.start.Plus(ray.forward.Times(r.impactDistance)))
  }

  /** Map::RaycastVsWalls: the solid-tile heat map hit, then the floor and the ceiling. */
  function TileWallRaycast(em: EngineMath, solidMap: seq<real>, ray: Ray): (r: DoomRaycastResult)
    ensures r.impactActorUID == ActorUID.INVALID
    ensures em.raycastVsSolidMap(solidMap, ray.start, ray.forward, ray.maxDistance).didImpact ==> r.didImpact
    ensures r.impactPosition == ray.start.Plus(ray.forward.Times(r.impactDistance))
  {
    var tiles := em.raycastVsSolidMap(solidMap, ray.start, ray.forward, ray.maxDistance);
    var start := Unhit(ray.maxDistance);
    var hit := if tiles.didImpact
               then start.(didImpact := true, impactDistance := tiles.impactDistance, impactNormal := tiles.impactNormal)
               else start;
    AtImpact(ClipToCeiling(ClipToFloor(hit, ray), ray), ray)
  }

  /** The upright cylinder of a static actor. */
  function StaticCylinder(s: StaticActor): Cylinder
  {
    Cylinder(s.position, s.position.Plus(SKYWARD.Times(s.physicsHeight)), s.physicsRadius)
  }

  function StaticHit(em: EngineMath, statics: seq<StaticActor>, k: nat, ray: Ray): RayHit
    requires k < |statics|
  {
    em.raycastVsCylinder(ray.start, ray.forward, ray.maxDistance, StaticCylinder(statics[k]))
  }

  /** The ray stops at static actor k within the distance. */
  predicate StaticHittable(em: EngineMath, statics: seq<StaticActor>, k: nat, ray: Ray)
    requires k < |statics|
  {
    StaticHit(em, statics, k, ray).didImpact && StaticHit(em, statics, k, ray).impactDistance < ray.maxDistance
  }

  /** The static actor GoldMap::RaycastVsWalls settles on after examining the first n. */
  function NearestStatic(em: EngineMath, statics: seq<StaticActor>, ray: Ray, n: nat): (r: Option<nat>)
    requires n <= |statics|
    ensures r.Some? ==> r.value < n && StaticHittable(em, statics, r.value, ray)
    ensures r.Some? ==> forall j :: 0 <= j < n && StaticHittable(em, statics, j, ray) ==>
      StaticHit(em, statics, r.value, ray).impactDistance <= StaticHit(em, statics, j, ray).impactDistance
    ensures r.None? ==> forall j :: 0 <= j < n ==> !StaticHittable(em, statics, j, ray)
  {
    if n == 0 then None
    else
      var previous := NearestStatic(em, statics, ray, n - 1);
      var bound := if previous.Some? then StaticHit(em, statics, previous.value, ray).impactDistance else ray.maxDistance;
      var k := n - 1;
      if StaticHit(em, statics, k, ray).didImpact && StaticHit(em, statics, k, ray).impactDistance < bound
      then Some(k)
      else previous
  }

  /** The static-actor part of GoldMap::RaycastVsWalls: the nearest static hit, if any. */
  function StaticRaycast(em: EngineMath, statics: seq<StaticActor>, ray: Ray): (r: DoomRaycastResult)
    ensures r.impactActorUID == ActorUID.INVALID
    ensures r.impactDistance <= ray.maxDistance
    ensures r.didImpact <==> exists j :: 0 <= j < |statics| && StaticHittable(em, statics, j, ray)
    ensures forall j :: 0 <= j < |statics| && StaticHittable(em, statics, j, ray) ==>
      r.impactDistance <= StaticHit(em, statics, j, ray).impactDistance
  {
    var start := Unhit(ray.maxDistance);
    match NearestStatic(em, statics, ray, |statics|)
    case None => start
    case Some(k) =>
      var h := StaticHit(em, statics, k, ray);
      start.(didImpact := true, impactDistance := h.impactDistance, impactNormal := h.impactNormal)
  }

  /** GoldMap::RaycastVsWalls: the nearest static actor, then the floor; no ceiling. */
  function GoldWallRaycast(em: EngineMath, statics: seq<StaticActor>, ray: Ray): (r: DoomRaycastResult)
    ensures r.impactActorUID == ActorUID.INVALID
    ensures r.impactDistance <= ray.maxDistance
    ensures forall j :: 0 <= j < |statics| && StaticHittable(em, statics, j, ray) ==>
      r.didImpact && r.impactDistance <= StaticHit(em, statics, j, ray).impactDistance
    ensures ray.forward.z < 0.0 && FloorDistance(ray) < ray.maxDistance ==>
      r.didImpact && r.impactDistance <= FloorDistance(ray)
    ensures r.didImpact <==>
      (exists j :: 0 <= j < |statics| && StaticHittable(em, statics, j, ray)) ||
      (ray.forward.z < 0.0 && FloorDistance(ray) < ray.maxDistance)
    ensures r.impactPosition == ray.start.Plus(ray.forward.Times(r.impactDistance))
  {
    AtImpact(ClipToFloor(StaticRaycast(em, statics, ray), ray), ray)
  }

  /**
   * RaycastVsAll's choice: the actor hit only when it is strictly nearer
   * than the wall hit, the wall hit on a tie, whichever alone impacted, and
   * a default result when neither did.
   */
  function NearerHit(actorHit: DoomRaycastResult, wallHit: DoomRaycastResult): (r: DoomRaycastResult)
    ensures r == actorHit <== actorHit.didImpact && (!wallHit.didImpact || actorHit.impactDistance < wallHit.impactDistance)
    ensures r == wallHit <== wallHit.didImpact && (!actorHit.didImpact || wallHit.impactDistance <= actorHit.impactDistance)
    ensures r == NO_IMPACT <== !actorHit.didImpact && !wallHit.didImpact
    ensures r.didImpact <==> actorHit.didImpact || wallHit.didImpact
  {
    if actorHit.didImpact && wallHit.didImpact then
      if actorHit.impactDistance < wallHit.impactDistance then actorHit else wallHit
    else if actorHit.didImpact then actorHit
    else if wallHit.didImpact then wallHit
    else NO_IMPACT
  }

  /** A seeker regards an actor as an enemy: alive, of another faction, and not of the INVALID faction. */
  predicate EnemyOf(seeker: Actor, o: Option<Actor>)
  {
    IsActorAlive(o) &&
    o.value.definition.faction != seeker.definition.faction &&
    o.value.definition.faction != INVALID
  }

  /** The ray HasLineOfSight casts: from the seeker's eye toward the target, as far as the seeker can see. */
  function SightRay(em: EngineMath, seeker: Actor, target: Actor): Ray
  {
    Ray(EyePosition(em, seeker), em.normalized(target.position.Minus(seeker.position)), seeker.definition.sightRadius)
  }

  /** The sight raycast stops farther away than the target, measured in the horizontal plane. */
  predicate StopsBeyond(r: DoomRaycastResult, seeker: Actor, target: Actor)
  {
    r.impactDistance * r.impactDistance > DistanceSquared2D(target.position.XY(), seeker.position.XY())
  }

  /** The walls, floor and ceiling a ray can stop at, as the map's dynamic type sees them. */
  datatype Walls = Walls(isGold: bool, statics: seq<StaticActor>, solidMap: seq<real>)

  /** RaycastVsWalls over given walls: the static actors' on the gold map, the tiles' otherwise. */
  function WallHit(em: EngineMath, w: Walls, ray: Ray): DoomRaycastResult
  {
    if w.isGold then GoldWallRaycast(em, w.statics, ray) else TileWallRaycast(em, w.solidMap, ray)
  }

  class Map {
    /** The dynamic type: a GoldMap rather than a Map. */
    const isGold: bool
    /** Whether a VR headset is running (g_openXR initialised); fixed for the run. */
    const vr: bool
    const actorDefs: map<string, ActorDefinition>
    const weaponDefs: map<string, WeaponDefinition>
    const tileDefs: map<string, TileDefinition>
    /** GoldMap::m_dimensions, the gold map's own extent. */
    const goldDims: IntVec2
    /** GoldMap::m_staticActors: cliffs, trees and rocks, placed once. */
    const staticActors: seq<StaticActor>

    /** m_definition.m_dimensions, what GetDimensions returns; zero on the gold map. */
    var dims: IntVec2
    var tiles: seq<Tile>
    /** The heat values of m_solidMap: 0 for solid tiles, 1 for others. */
    var solidMap: seq<real>
    var actors: seq<Option<Actor>>
    var spawnPoints: seq<Actor>
    var actorSalt: nat
    var ais: seq<AIController>
    var player: PlayerController
    var remainingEnemies: int
    var level: int
    var isCombatMode: bool

    /**
     * The map's invariant: each actor sits at the index its handle names
     * (modulo 2^16), controllers it names exist, its equipped index is in
     * range, and the tile grid has one tile per cell.
     */
    ghost predicate Valid()
      reads this
    {
      (forall i :: 0 <= i < |actors| && actors[i].Some? ==> actors[i].value.uid.GetIndex() == i % HALF) &&
      (forall i :: 0 <= i < |actors| && actors[i].Some? ==> WellFormed(actors[i].value, |ais|)) &&
      0 <= dims.x && 0 <= dims.y && |tiles| == dims.x * dims.y &&
      (isGold ==> dims == IntVec2(0, 0))
    }

    /** A controller reference that names an existing controller. */
    predicate CtlExists(c: CtlRef)
      reads this
    {
      c.AICtl? ==> c.index < |ais|
    }

    /** The handle a controller holds (m_actorUID). */
    function CtlActorUID(c: CtlRef): ActorUID
      reads this
      requires CtlExists(c)
    {
      if c.PlayerCtl? then player.actorUID else ais[c.index].actorUID
    }

    /**
     * Map::GetActorByUID: the slot the handle's index names, provided the
     * handle is not INVALID and the actor there carries exactly this handle.
     */
    function GetActorByUID(uid: ActorUID): (r: Option<nat>)
      reads this
      ensures r.Some? <==>
        uid != ActorUID.INVALID && uid.GetIndex() < |actors| &&
        actors[uid.GetIndex()].Some? && actors[uid.GetIndex()].value.uid == uid
      ensures r.Some? ==> r.value == uid.GetIndex()
    {
      Resolve(actors, uid)
    }

    /** Controller::GetActor: nothing while the controller has no map, else what its handle resolves to. */
    function GetActor(c: CtlRef): (r: Option<nat>)
      reads this
      requires CtlExists(c)
      ensures c.PlayerCtl? && !player.onMap ==> r.None?
      ensures c.AICtl? || player.onMap ==> r == GetActorByUID(CtlActorUID(c))
    {
      if c.PlayerCtl? && !player.onMap then None else GetActorByUID(CtlActorUID(c))
    }

    /** The virtual RaycastVsWalls, by the map's dynamic type. */
    function WallRaycast(em: EngineMath, ray: Ray): DoomRaycastResult
      reads this`solidMap
    {
      WallHit(em, WallsNow(), ray)
    }

    /** What the wall raycast looks at: the dynamic type, the static actors and the solid map. */
    function WallsNow(): Walls
      reads this`solidMap
    {
      Walls(isGold, staticActors, solidMap)
    }

    /**
     * Map::HasLineOfSight: a wall raycast from the seeker's eye toward the
     * target, as far as the seeker can see, stops beyond the target's
     * horizontal distance.
     */
    predicate HasLineOfSight(em: EngineMath, seeker: Actor, target: Actor)
      reads this`solidMap
    {
      StopsBeyond(WallRaycast(em, SightRay(em, seeker, target)), seeker, target)
    }

    /** The seeker sees the target: inside its sight sector and with a line of sight. */
    predicate Sees(em: EngineMath, seeker: Actor, target: Actor)
      reads this`solidMap
    {
      em.insideSector(target.position.XY(), seeker.position.XY(), em.forwardOf(seeker.orientation).XY(),
                      seeker.definition.sightAngle, seeker.definition.sightRadius) &&
      HasLineOfSight(em, seeker, target)
    }

    /** Slot j holds an enemy the seeker sees. */
    predicate VisibleEnemy(em: EngineMath, seeker: Actor, j: nat)
      reads this`actors, this`solidMap
      requires j < |actors|
    {
      EnemyOf(seeker, actors[j]) && Sees(em, seeker, actors[j].value)
    }

    /** The distance GetClosestVisibleEnemy ranks slot j by. */
    function SeekDistance(em: EngineMath, seeker: Actor, j: nat): real
      reads this`actors
      requires j < |actors| && actors[j].Some?
    {
      em.distance3D(actors[j].value.position, seeker.position)
    }

    // ---------------------------------------------------------------- construction

    /**
     * Map(game, mapDef): the tile grid read from the map image (the tile
     * type of each cell, row by row, is `cellTypes`), the solid heat map,
     * then one actor for each spawn entry whose name is a DEMON faction name
     * and one spawn point for each whose name is a SPAWNPOINT faction name.
     */
    constructor FromDefinition(actorDefs: map<string, ActorDefinition>, weaponDefs: map<string, WeaponDefinition>,
                               tileDefs: map<string, TileDefinition>, vr: bool,
                               dims: IntVec2, cellTypes: seq<string>, spawnInfos: seq<SpawnInfo>)
      requires 0 <= dims.x && 0 <= dims.y && |cellTypes| == dims.x * dims.y
      requires forall k :: 0 <= k < |cellTypes| ==> cellTypes[k] in tileDefs
      ensures Valid() && !isGold
      ensures this.dims == dims && this.vr == vr && this.actorDefs == actorDefs
      ensures forall c :: InBounds(c, dims) ==>
        0 <= TileIndex(c, dims.x) < |tiles| &&
        tiles[TileIndex(c, dims.x)] == NewTile(tileDefs, cellTypes[TileIndex(c, dims.x)], c.x, c.y)
      ensures solidMap == SolidHeatValues(tiles, dims.x * dims.y)
      ensures |actors| == CountFaction(spawnInfos, DEMON) && |spawnPoints| == CountFaction(spawnInfos, SPAWNPOINT)
      ensures forall i :: 0 <= i < |actors| ==> actors[i].Some?
      ensures Roster(actors, spawnPoints, actorSalt, ais) == SpawnAll(actorDefs, vr, spawnInfos, Roster([], [], 0, []))
      ensures player == NEW_PLAYER
    {
      isGold := false;
      this.vr := vr;
      this.actorDefs := actorDefs;
      this.weaponDefs := weaponDefs;
      this.tileDefs := tileDefs;
      goldDims := IntVec2(0, 0);
      staticActors := [];
      this.dims := dims;
      tiles := seq(dims.x * dims.y, _ => UNSET_TILE);
      solidMap := [];
      actors := [];
      spawnPoints := [];
      actorSalt := 0;
      ais := [];
      player := NEW_PLAYER;
      remainingEnemies := 0;
      level := 0;
      isCombatMode := false;
      new;
      ConstructMapFromImage(cellTypes);
      CreateTileHeatMaps();
      SpawnFromDefinition(spawnInfos);
    }

    /**
     * GoldMap(game): a 50 by 50 open field with one spawn point at
     * (10, 10, 0) facing along +x, and the given cliffs, trees and rocks.
     * It has no tile grid: GetDimensions still reports the base map's empty
     * definition.
     */
    constructor Gold(actorDefs: map<string, ActorDefinition>, weaponDefs: map<string, WeaponDefinition>,
                     vr: bool, staticActors: seq<StaticActor>)
      ensures Valid() && isGold
      ensures this.vr == vr && this.actorDefs == actorDefs && this.weaponDefs == weaponDefs
      ensures goldDims == IntVec2(50, 50) && this.staticActors == staticActors
      ensures dims == IntVec2(0, 0) && tiles == [] && actors == [] && ais == [] && player == NEW_PLAYER
      ensures spawnPoints == [NewActor(actorDefs, SpawnInfo("SpawnPoint", Vec3(10.0, 10.0, 0.0), EulerAngles(0.0, 0.0, 0.0)),
                                       Mint(0, 0))]
      ensures actorSalt == 1
      ensures level == 0 && remainingEnemies == 0 && !isCombatMode
    {
      isGold := true;
      this.vr := vr;
      this.actorDefs := actorDefs;
      this.weaponDefs := weaponDefs;
      tileDefs := map[];
      goldDims := IntVec2(50, 50);
      this.staticActors := staticActors;
      dims := IntVec2(0, 0);
      tiles := [];
      solidMap := [];
      actors := [];
      spawnPoints := [];
      actorSalt := 0;
      ais := [];
      player := NEW_PLAYER;
      remainingEnemies := 0;
      level := 0;
      isCombatMode := false;
      new;
      CreateSpawnPoint(SpawnInfo("SpawnPoint", Vec3(10.0, 10.0, 0.0), EulerAngles(0.0, 0.0, 0.0)));
    }

    /** Map::ConstructMapFromImage: row by row, each cell gets the tile type the image names for it. */
    method ConstructMapFromImage(cellTypes: seq<string>)
      requires Valid() && |cellTypes| == dims.x * dims.y
      requires forall k :: 0 <= k < |cellTypes| ==> cellTypes[k] in tileDefs
      modifies this`tiles
      ensures Valid()
      ensures forall c :: InBounds(c, dims) ==>
        0 <= TileIndex(c, dims.x) < |tiles| &&
        tiles[TileIndex(c, dims.x)] == NewTile(tileDefs, cellTypes[TileIndex(c, dims.x)], c.x, c.y)
    {
      forall c | InBounds(c, dims)
        ensures 0 <= TileIndex(c, dims.x) < |tiles|
      {
        TileIndexInGrid(c, c, dims);
      }
      var y := 0;
      while y < dims.y
        invariant 0 <= y <= dims.y
        invariant Valid()
        invariant forall c :: InBounds(c, dims) ==> 0 <= TileIndex(c, dims.x) < |tiles|
        invariant forall c :: InBounds(c, dims) && c.y < y ==>
          tiles[TileIndex(c, dims.x)] == NewTile(tileDefs, cellTypes[TileIndex(c, dims.x)], c.x, c.y)
      {
        var x := 0;
        while x < dims.x
          invariant 0 <= x <= dims.x
          invariant Valid()
          invariant forall c :: InBounds(c, dims) ==> 0 <= TileIndex(c, dims.x) < |tiles|
          invariant forall c :: InBounds(c, dims) && (c.y < y || (c.y == y && c.x < x)) ==>
            tiles[TileIndex(c, dims.x)] == NewTile(tileDefs, cellTypes[TileIndex(c, dims.x)], c.x, c.y)
        {
          var here := IntVec2(x, y);
          TileIndicesInGrid(here, dims);
          SetTileType(here, cellTypes[TileIndex(here, dims.x)]);
          x := x + 1;
        }
        y := y + 1;
      }
    }

    /**
     * The spawn loop of the Map constructor: an actor for each entry whose
     * name is a DEMON faction name, a spawn point for each whose name is a
     * SPAWNPOINT faction name, and nothing for the rest.
     */
    method SpawnFromDefinition(spawnInfos: seq<SpawnInfo>)
      requires Valid()
      modifies this`actors, this`actorSalt, this`ais, this`spawnPoints
      ensures Valid() && Evolves(old(actors), actors)
      ensures Roster(actors, spawnPoints, actorSalt, ais) ==
              SpawnAll(actorDefs, vr, spawnInfos, old(Roster(actors, spawnPoints, actorSalt, ais)))
      ensures |actors| == old(|actors|) + CountFaction(spawnInfos, DEMON)
      ensures |spawnPoints| == old(|spawnPoints|) + CountFaction(spawnInfos, SPAWNPOINT)
      ensures forall i :: old(|actors|) <= i < |actors| ==> actors[i].Some?
      ensures forall j :: 0 <= j < CountFaction(spawnInfos, DEMON) ==>
        HoldsSpawned(actorDefs, vr, actors, old(|actors|) + j, Demons(spawnInfos)[j])
    {
      ghost var start := Roster(actors, spawnPoints, actorSalt, ais);
      var k := 0;
      while k < |spawnInfos|
        invariant 0 <= k <= |spawnInfos|
        invariant Valid() && Evolves(old(actors), actors)
        invariant Roster(actors, spawnPoints, actorSalt, ais) == SpawnAll(actorDefs, vr, spawnInfos[..k], start)
      {
        ghost var before := actors;
        SpawnEntry(spawnInfos[k]);
        EvolvesTransitive(old(actors), before, actors);
        SpawnAllStep(actorDefs, vr, spawnInfos, k, start);
        k := k + 1;
      }
      assert spawnInfos[..k] == spawnInfos;
      SpawnAllFacts(actorDefs, vr, spawnInfos, start);
    }

    /**
     * One entry of SpawnFromDefinition: a DEMON becomes an actor (possessed
     * by a new AI controller when its definition enables AI), a SPAWNPOINT a
     * spawn point, each with the next handle; anything else changes nothing.
     */
    method SpawnEntry(info: SpawnInfo)
      requires Valid()
      modifies this`actors, this`actorSalt, this`ais, this`spawnPoints
      ensures Valid() && Evolves(old(actors), actors)
      ensures Roster(actors, spawnPoints, actorSalt, ais) ==
              SpawnOne(actorDefs, vr, info, old(Roster(actors, spawnPoints, actorSalt, ais)))
    {
      EvolvesReflexive(actors);
      var faction := GetFactionFromString(info.actor);
      if faction == DEMON {
        var _ := SpawnActor(info);
      } else if faction == SPAWNPOINT {
        CreateSpawnPoint(info);
      }
    }

    // ---------------------------------------------------------------- tiles

    /** SetTileType: the tile at the coordinates becomes a tile of the named type at those coordinates. */
    method SetTileType(c: IntVec2, typeName: string)
      requires Valid() && InBounds(c, dims) && typeName in tileDefs
      modifies this`tiles
      ensures Valid()
      ensures 0 <= TileIndex(c, dims.x) < |tiles|
      ensures tiles == old(tiles)[TileIndex(c, dims.x) := NewTile(tileDefs, typeName, c.x, c.y)]
    {
      TileIndexInGrid(c, c, dims);
      tiles := tiles[TileIndex(c, dims.x) := NewTile(tileDefs, typeName, c.x, c.y)];
    }

    /** CreateTileHeatMaps: one heat value per tile of the grid, 0 where solid and 1 elsewhere. */
    method CreateTileHeatMaps()
      requires Valid()
      modifies this`solidMap
      ensures solidMap == SolidHeatValues(tiles, dims.x * dims.y)
    {
      var count := dims.x * dims.y;
      var values: seq<real> := seq(count, _ => 0.0);
      var i := 0;
      while i < count
        invariant 0 <= i <= count && |values| == count
        invariant forall k :: 0 <= k < i ==> values[k] == (if IsSolid(tiles[k]) then 0.0 else 1.0)
      {
        values := values[i := if IsSolid(tiles[i]) then 0.0 else 1.0];
        i := i + 1;
      }
      assert values == SolidHeatValues(tiles, count);
      solidMap := values;
    }

    // ---------------------------------------------------------------- actor slots

    /**
     * Replaces every actor by a later state of the same actor, for the passes
     * that visit each slot once and change only the actor in it.
     */
    method SetActors(next: seq<Option<Actor>>)
      requires Valid() && |next| == |actors|
      requires forall k :: 0 <= k < |actors| ==> SlotEvolves(actors[k], next[k])
      requires forall k :: 0 <= k < |next| && next[k].Some? ==> WellFormed(next[k].value, |ais|)
      modifies this`actors
      ensures actors == next
      ensures Valid() && Evolves(old(actors), actors)
    {
      actors := next;
    }

    /** Replaces the actor in slot i by a later state of the same actor. */
    method SetActor(i: nat, a: Actor)
      requires Valid() && i < |actors| && actors[i].Some?
      requires Persists(actors[i].value, a) && WellFormed(a, |ais|)
      modifies this`actors
      ensures actors == old(actors)[i := Some(a)]
      ensures Valid() && Evolves(old(actors), actors)
    {
      UpdateEvolves(actors, i, a);
      actors := actors[i := Some(a)];
    }

    /**
     * Map::SpawnActor: the actor is built with the handle (salt, current
     * size) and appended, so it sits at its handle's index; the salt goes up
     * by one. An AI controller is created, made to possess the actor and
     * recorded exactly when the definition enables AI.
     */
    method SpawnActor(info: SpawnInfo) returns (slot: nat)
      requires Valid()
      modifies this`actors, this`actorSalt, this`ais
      ensures Valid()
      ensures slot == old(|actors|) && |actors| == slot + 1 && actors[..slot] == old(actors)
      ensures actorSalt == old(actorSalt) + 1
      ensures var born := NewActor(actorDefs, info, Mint(old(actorSalt), slot));
        if born.definition.aiEnabled then
          actors[slot] == Some(OnPossessed(born, AICtl(old(|ais|)), vr)) &&
          ais == old(ais) + [AIController(born.uid, ActorUID.INVALID)]
        else
          actors[slot] == Some(born) && ais == old(ais)
      ensures actors[slot].Some? && actors[slot].value.uid == Mint(old(actorSalt), slot)
      ensures actors == old(actors) + [Some(Spawned(actorDefs, info, Mint(old(actorSalt), slot), old(|ais|), vr))]
      ensures Evolves(old(actors), actors)
    {
      slot := |actors|;
      var born := NewActor(actorDefs, info, Mint(actorSalt, slot));
      PendingOfIdle(born.weapons);
      PendingOfIdle(born.leftWeapons);
      PendingOfIdle(born.rightWeapons);
      AppendEvolves(actors, born);
      actors := actors + [Some(born)];
      actorSalt := actorSalt + 1;
      if born.definition.aiEnabled {
        ais := ais + [AIController(born.uid, ActorUID.INVALID)];
        SetActor(slot, OnPossessed(born, AICtl(|ais| - 1), vr));
        EvolvesTransitive(old(actors), old(actors) + [Some(born)], actors);
      }
    }

    /** Map::CreateSpawnPoint: a spawn point is built with the next handle and kept apart from the actors. */
    method CreateSpawnPoint(info: SpawnInfo)
      requires Valid()
      modifies this`spawnPoints, this`actorSalt
      ensures Valid()
      ensures spawnPoints == old(spawnPoints) + [NewActor(actorDefs, info, Mint(old(actorSalt), |actors|))]
      ensures actorSalt == old(actorSalt) + 1
    {
      spawnPoints := spawnPoints + [NewActor(actorDefs, info, Mint(actorSalt, |actors|))];
      actorSalt := actorSalt + 1;
    }

    /** Empties slot i, whose actor is destroyed. */
    method ClearSlot(i: nat)
      requires Valid() && i < |actors| && actors[i].Some? && actors[i].value.isDestroyed
      modifies this`actors
      ensures actors == old(actors)[i := None]
      ensures Valid() && Evolves(old(actors), actors)
    {
      actors := actors[i := None];
    }

    /** Map::DeleteDestroyedActors: exactly the slots holding destroyed actors become empty. */
    method DeleteDestroyedActors()
      requires Valid()
      modifies this`actors
      ensures |actors| == old(|actors|)
      ensures forall i :: 0 <= i < |actors| ==>
        actors[i] == (if old(actors[i]).Some? && old(actors[i]).value.isDestroyed then None else old(actors[i]))
      ensures forall i :: 0 <= i < |actors| && actors[i].Some? ==> !actors[i].value.isDestroyed
      ensures Valid() && Evolves(old(actors), actors)
    {
      var i := 0;
      while i < |actors|
        invariant 0 <= i <= |actors| == old(|actors|)
        invariant Valid() && Evolves(old(actors), actors)
        invariant forall k :: 0 <= k < i ==>
          actors[k] == (if old(actors[k]).Some? && old(actors[k]).value.isDestroyed then None else old(actors[k]))
        invariant forall k :: i <= k < |actors| ==> actors[k] == old(actors[k])
      {
        if actors[i].Some? && actors[i].value.isDestroyed {
          ghost var before := actors;
          ClearSlot(i);
          EvolvesTransitive(old(actors), before, actors);
        }
        i := i + 1;
      }
    }

    // ---------------------------------------------------------------- possession

    /**
     * Controller::Possess: the controller takes the actor's handle and the
     * actor takes the controller. The link is two-way: afterwards the
     * controller's GetActor finds the actor, unless the handle cannot
     * resolve (it is the INVALID sentinel or names a slot past 2^16).
     */
    method Possess(c: CtlRef, i: nat)
      requires Valid() && CtlExists(c) && i < |actors| && actors[i].Some?
      modifies this`actors, this`ais, this`player
      ensures actors == old(actors)[i := Some(OnPossessed(old(actors[i].value), c, vr))]
      ensures |ais| == old(|ais|)
      ensures CtlActorUID(c) == actors[i].value.uid == old(actors[i].value.uid)
      ensures actors[i].value.controller == Some(c)
      ensures c.PlayerCtl? ==> player == old(player).(actorUID := old(actors[i].value.uid)) && ais == old(ais)
      ensures c.AICtl? ==> ais == old(ais)[c.index := old(ais[c.index]).(actorUID := old(actors[i].value.uid))] &&
                           player == old(player)
      ensures (c.AICtl? || player.onMap) && i < HALF && actors[i].value.uid != ActorUID.INVALID ==> GetActor(c) == Some(i)
      ensures Valid() && Evolves(old(actors), actors)
    {
      var a := actors[i].value;
      match c {
        case PlayerCtl => player := player.(actorUID := a.uid);
        case AICtl(k) => ais := ais[k := ais[k].(actorUID := a.uid)];
      }
      SetActor(i, OnPossessed(a, c, vr));
    }

    /** Controller::Unpossess: the controller drops its handle and the actor falls back to its AI or to none. */
    method Unpossess(c: CtlRef, i: nat)
      requires Valid() && CtlExists(c) && i < |actors| && actors[i].Some?
      modifies this`actors, this`ais, this`player
      ensures |ais| == old(|ais|)
      ensures CtlActorUID(c) == ActorUID.INVALID
      ensures GetActor(c).None?
      ensures actors == old(actors)[i := Some(OnUnpossessed(old(actors[i].value)))]
      ensures c.PlayerCtl? ==> player == old(player).(actorUID := ActorUID.INVALID) && ais == old(ais)
      ensures c.AICtl? ==> ais == old(ais)[c.index := old(ais[c.index]).(actorUID := ActorUID.INVALID)] &&
                           player == old(player)
      ensures Valid() && Evolves(old(actors), actors)
    {
      match c {
        case PlayerCtl => player := player.(actorUID := ActorUID.INVALID);
        case AICtl(k) => ais := ais[k := ais[k].(actorUID := ActorUID.INVALID)];
      }
      SetActor(i, OnUnpossessed(actors[i].value));
    }

    /** Player::Possess: Controller::Possess, then the Player is on the actor's map and its camera at the actor's eye. */
    method PlayerPossess(em: EngineMath, i: nat)
      requires Valid() && i < |actors| && actors[i].Some?
      modifies this`actors, this`ais, this`player
      ensures ais == old(ais)
      ensures actors == old(actors)[i := Some(OnPossessed(old(actors[i].value), PlayerCtl, vr))]
      ensures player == old(player).(actorUID := old(actors[i].value.uid), onMap := true,
                                     position := EyePosition(em, actors[i].value),
                                     orientation := old(actors[i].value.orientation))
      ensures i < HALF && actors[i].value.uid != ActorUID.INVALID ==> GetActor(PlayerCtl) == Some(i)
      ensures Valid() && Evolves(old(actors), actors)
    {
      Possess(PlayerCtl, i);
      var a := actors[i].value;
      player := player.(onMap := true, position := EyePosition(em, a), orientation := a.orientation);
      if i < HALF {
        ResolvesToItsSlot(i);
      }
    }

    /** Player::Unpossess: the actor's handle is remembered as the last possessed, then Controller::Unpossess. */
    method PlayerUnpossess(i: nat)
      requires Valid() && i < |actors| && actors[i].Some?
      modifies this`actors, this`ais, this`player
      ensures ais == old(ais)
      ensures actors == old(actors)[i := Some(OnUnpossessed(old(actors[i].value)))]
      ensures player == old(player).(lastPossessedActorUID := old(actors[i].value.uid), actorUID := ActorUID.INVALID)
      ensures GetActor(PlayerCtl).None?
      ensures Valid() && Evolves(old(actors), actors)
    {
      player := player.(lastPossessedActorUID := actors[i].value.uid);
      Unpossess(PlayerCtl, i);
    }

    /**
     * Map::SpawnPlayer: a "Soldier" at the spawn point the roll picks,
     * possessed by the Player. The roll is reduced to the number of spawn
     * points; with none the source indexes an empty vector, and the model
     * spawns nothing.
     */
    method SpawnPlayer(em: EngineMath, roll: nat) returns (slot: Option<nat>)
      requires Valid()
      modifies this`actors, this`actorSalt, this`ais, this`player
      ensures |spawnPoints| == 0 ==>
        slot.None? && actors == old(actors) && actorSalt == old(actorSalt) && ais == old(ais) && player == old(player)
      ensures |spawnPoints| > 0 ==>
        slot == Some(old(|actors|)) && |actors| == old(|actors|) + 1 && actors[..old(|actors|)] == old(actors) &&
        actors[slot.value].Some? &&
        actors[slot.value].value.uid == Mint(old(actorSalt), old(|actors|)) &&
        actors[slot.value].value.definition == LookupActorDefinition(actorDefs, "Soldier") &&
        actors[slot.value].value.position == spawnPoints[roll % |spawnPoints|].position &&
        actors[slot.value].value.controller == Some(PlayerCtl) &&
        player.actorUID == actors[slot.value].value.uid && player.onMap &&
        actorSalt == old(actorSalt) + 1
      ensures Valid() && Evolves(old(actors), actors)
    {
      if |spawnPoints| == 0 {
        return None;
      }
      var point := spawnPoints[roll % |spawnPoints|];
      var s := SpawnActor(SpawnInfo("Soldier", point.position, point.orientation));
      ghost var spawned := actors;
      PlayerPossess(em, s);
      EvolvesTransitive(old(actors), spawned, actors);
      slot := Some(s);
    }

    // ---------------------------------------------------------------- handle safety

    /** A live actor's own handle finds it, as long as it sits below slot 2^16 and is not the sentinel. */
    lemma ResolvesToItsSlot(i: nat)
      requires Valid() && i < |actors| && i < HALF && actors[i].Some?
      ensures actors[i].value.uid != ActorUID.INVALID ==> GetActorByUID(actors[i].value.uid) == Some(i)
    {
    }

    /** A handle never finds an empty slot, nor a slot holding any other handle. */
    lemma NeverResolvesToAnotherHandle(uid: ActorUID)
      ensures GetActorByUID(uid).Some? ==> actors[GetActorByUID(uid).value].Some? &&
                                           actors[GetActorByUID(uid).value].value.uid == uid
    {
    }

    /** An actor in a slot at or past 2^16 can never be found by its own handle: the index has wrapped. */
    lemma SlotsBeyondIndexRangeUnreachable(j: nat)
      requires Valid() && HALF <= j < |actors| && actors[j].Some?
      ensures GetActorByUID(actors[j].value.uid) != Some(j)
    {
    }

    /**
     * When the index has wrapped and the salts agree modulo 2^16, the handle
     * of the actor in slot j finds the actor in slot j - 2^16 instead.
     */
    lemma WrappedHandleFindsAnotherActor(j: nat)
      requires Valid() && HALF <= j < |actors| && j < 2 * HALF
      requires actors[j].Some? && actors[j - HALF].Some?
      requires actors[j].value.uid.GetSalt() == actors[j - HALF].value.uid.GetSalt()
      requires actors[j].value.uid != ActorUID.INVALID
      ensures GetActorByUID(actors[j].value.uid) == Some(j - HALF)
    {
      SaltAndIndexDetermineHandle(actors[j].value.uid, actors[j - HALF].value.uid);
    }

    // ---------------------------------------------------------------- queries

    /**
     * Map::RaycastVsActors: among live actors other than the excluded one,
     * the first nearest whose cylinder the ray hits within its distance.
     */
    method RaycastVsActors(em: EngineMath, ray: Ray, exclude: Option<nat>) returns (r: DoomRaycastResult)
      ensures r == ActorRaycast(em, actors, exclude, ray, |actors|)
    {
      r := Unhit(ray.maxDistance);
      var i := 0;
      while i < |actors|
        invariant 0 <= i <= |actors|
        invariant r == ActorRaycast(em, actors, exclude, ray, i)
      {
        if Some(i) != exclude && IsActorAlive(actors[i]) {
          var hit := em.raycastVsCylinder(ray.start, ray.forward, ray.maxDistance, RayCylinder(em, actors[i].value));
          if hit.didImpact && hit.impactDistance < r.impactDistance {
            r := FromRayHit(hit).(impactActorUID := actors[i].value.uid);
          }
        }
        i := i + 1;
      }
    }

    /** The virtual RaycastVsWalls; GoldMap's override walks the static actors. */
    method RaycastVsWalls(em: EngineMath, ray: Ray) returns (r: DoomRaycastResult)
      ensures r == WallRaycast(em, ray)
    {
      if !isGold {
        return TileWallRaycast(em, solidMap, ray);
      }
      var nearest := Unhit(ray.maxDistance);
      var k := 0;
      while k < |staticActors|
        invariant 0 <= k <= |staticActors|
        invariant nearest == StaticRaycastUpTo(em, staticActors, ray, k)
      {
        var hit := em.raycastVsCylinder(ray.start, ray.forward, ray.maxDistance, StaticCylinder(staticActors[k]));
        if hit.didImpact && hit.impactDistance < nearest.impactDistance {
          nearest := Unhit(ray.maxDistance).(didImpact := true, impactDistance := hit.impactDistance,
                                             impactNormal := hit.impactNormal);
        }
        k := k + 1;
      }
      r := AtImpact(ClipToFloor(nearest, ray), ray);
    }

    /** Map::RaycastVsAll: the nearer of the actor raycast and the wall raycast. */
    method RaycastVsAll(em: EngineMath, ray: Ray, exclude: Option<nat>) returns (r: DoomRaycastResult)
      ensures r == NearerHit(ActorRaycast(em, actors, exclude, ray, |actors|), WallRaycast(em, ray))
    {
      var actorHit := RaycastVsActors(em, ray, exclude);
      var wallHit := RaycastVsWalls(em, ray);
      r := NearerHit(actorHit, wallHit);
    }

    /** The sector test and the line-of-sight raycast GetClosestVisibleEnemy makes for one candidate. */
    method CanSee(em: EngineMath, seeker: Actor, target: Actor) returns (b: bool)
      ensures b == Sees(em, seeker, target)
    {
      if !em.insideSector(target.position.XY(), seeker.position.XY(), em.forwardOf(seeker.orientation).XY(),
                          seeker.definition.sightAngle, seeker.definition.sightRadius) {
        return false;
      }
      var wall := RaycastVsWalls(em, SightRay(em, seeker, target));
      b := StopsBeyond(wall, seeker, target);
    }

    /**
     * Map::GetClosestVisibleEnemy: among the enemies the seeker sees, the
     * first one at the strictly smallest distance below FLT_MAX; none when
     * no enemy is seen that close.
     */
    method GetClosestVisibleEnemy(em: EngineMath, seeker: Actor) returns (r: Option<nat>)
      ensures r.Some? ==> r.value < |actors| && VisibleEnemy(em, seeker, r.value) &&
                          SeekDistance(em, seeker, r.value) < FLT_MAX
      ensures r.Some? ==> forall j :: 0 <= j < |actors| && VisibleEnemy(em, seeker, j) ==>
        SeekDistance(em, seeker, r.value) <= SeekDistance(em, seeker, j) &&
        (j < r.value ==> SeekDistance(em, seeker, r.value) < SeekDistance(em, seeker, j))
      ensures r.None? ==> forall j :: 0 <= j < |actors| && VisibleEnemy(em, seeker, j) ==>
        SeekDistance(em, seeker, j) >= FLT_MAX
    {
      r := None;
      var closest := FLT_MAX;
      var i := 0;
      while i < |actors|
        invariant 0 <= i <= |actors|
        invariant r.None? ==> closest == FLT_MAX
        invariant r.Some? ==> r.value < i && VisibleEnemy(em, seeker, r.value) &&
                              closest == SeekDistance(em, seeker, r.value) && closest < FLT_MAX
        invariant forall j :: 0 <= j < i && VisibleEnemy(em, seeker, j) ==>
          closest <= SeekDistance(em, seeker, j) &&
          (r.Some? && j < r.value ==> closest < SeekDistance(em, seeker, j))
      {
        if EnemyOf(seeker, actors[i]) {
          var target := actors[i].value;
          var visible := CanSee(em, seeker, target);
          if visible {
            var distance := em.distance3D(target.position, seeker.position);
            if distance < closest {
              closest := distance;
              r := Some(i);
            }
          }
        }
        i := i + 1;
      }
    }
  }

  /** The static-actor hit GoldMap::RaycastVsWalls holds after examining the first n static actors. */
  function StaticRaycastUpTo(em: EngineMath, statics: seq<StaticActor>, ray: Ray, n: nat): DoomRaycastResult
    requires n <= |statics|
  {
    match NearestStatic(em, statics, ray, n)
    case None => Unhit(ray.maxDistance)
    case Some(k) =>
      var h := StaticHit(em, statics, k, ray);
      Unhit(ray.maxDistance).(didImpact := true, impactDistance := h.impactDistance, impactNormal := h.impactNormal)
  }

  /** A tile the source has resized into the grid but not yet set. */
  const UNSET_TILE: Tile := Tile(TileDefinition("", false), IntVec2(0, 0))

  /** The spawn entries whose actor name is a name of the given faction. */
  function CountFaction(infos: seq<SpawnInfo>, f: Faction): nat
  {
    if |infos| == 0 then 0
    else CountFaction(infos[..|infos| - 1], f) + (if GetFactionFromString(infos[|infos| - 1].actor) == f then 1 else 0)
  }

  lemma CountFactionStep(infos: seq<SpawnInfo>, k: nat, f: Faction)
    requires k < |infos|
    ensures CountFaction(infos[..k + 1], f) ==
      CountFaction(infos[..k], f) + (if GetFactionFromString(infos[k].actor) == f then 1 else 0)
  {
    assert infos[..k + 1][..k] == infos[..k];
  }

  // ---------------------------------------------------------------- the spawn loop on values

  /** What the spawn loop of the Map constructor builds up: the actor slots, the spawn points, the handle salt and the AI controllers. */
  datatype Roster = Roster(actors: seq<Option<Actor>>, spawnPoints: seq<Actor>, salt: nat, ais: seq<AIController>)

  /**
   * The actor Map::SpawnActor appends: built from the entry with the handle
   * uid and, when its definition enables AI, possessed by AI controller k.
   */
  function Spawned(defs: map<string, ActorDefinition>, info: SpawnInfo, uid: ActorUID, k: nat, vr: bool): (a: Actor)
    ensures a.uid == uid && a.definition == LookupActorDefinition(defs, info.actor)
    ensures a.position == info.position && a.orientation == info.orientation
    ensures a.controller == (if a.definition.aiEnabled then Some(AICtl(k)) else None)
  {
    var born := NewActor(defs, info, uid);
    if born.definition.aiEnabled then OnPossessed(born, AICtl(k), vr) else born
  }

  /** The AI controller an actor is possessed by, or 0 when it has none. */
  function AIIndex(a: Actor): nat
  {
    if a.controller.Some? && a.controller.value.AICtl? then a.controller.value.index else 0
  }

  /**
   * One entry of the spawn loop: a DEMON is spawned with the next handle and,
   * when its definition enables AI, a new AI controller; a SPAWNPOINT becomes
   * a spawn point with the next handle; any other entry is ignored.
   */
  function SpawnOne(defs: map<string, ActorDefinition>, vr: bool, info: SpawnInfo, r: Roster): (out: Roster)
    ensures |out.actors| == |r.actors| + (if GetFactionFromString(info.actor) == DEMON then 1 else 0)
    ensures |out.spawnPoints| == |r.spawnPoints| + (if GetFactionFromString(info.actor) == SPAWNPOINT then 1 else 0)
    ensures out.actors[..|r.actors|] == r.actors && out.spawnPoints[..|r.spawnPoints|] == r.spawnPoints
  {
    var f := GetFactionFromString(info.actor);
    if f == DEMON then
      var a := Spawned(defs, info, Mint(r.salt, |r.actors|), |r.ais|, vr);
      Roster(r.actors + [Some(a)], r.spawnPoints, r.salt + 1,
             if a.definition.aiEnabled then r.ais + [AIController(a.uid, ActorUID.INVALID)] else r.ais)
    else if f == SPAWNPOINT then
      Roster(r.actors, r.spawnPoints + [NewActor(defs, info, Mint(r.salt, |r.actors|))], r.salt + 1, r.ais)
    else r
  }

  /** The spawn loop over the entries in order. */
  function SpawnAll(defs: map<string, ActorDefinition>, vr: bool, infos: seq<SpawnInfo>, r: Roster): Roster
    decreases |infos|
  {
    if |infos| == 0 then r
    else SpawnOne(defs, vr, infos[|infos| - 1], SpawnAll(defs, vr, infos[..|infos| - 1], r))
  }

  /** The entries whose actor name is a DEMON faction name, in order. */
  function Demons(infos: seq<SpawnInfo>): (d: seq<SpawnInfo>)
    ensures |d| == CountFaction(infos, DEMON)
    ensures forall i :: 0 <= i < |d| ==> GetFactionFromString(d[i].actor) == DEMON
  {
    if |infos| == 0 then []
    else Demons(infos[..|infos| - 1]) +
         (if GetFactionFromString(infos[|infos| - 1].actor) == DEMON then [infos[|infos| - 1]] else [])
  }

  /** The spawn loop only appends: one slot, always occupied, per DEMON entry and one spawn point per SPAWNPOINT entry. */
  lemma {:induction false} SpawnAllCounts(defs: map<string, ActorDefinition>, vr: bool, infos: seq<SpawnInfo>, r: Roster)
    ensures var out := SpawnAll(defs, vr, infos, r);
      |out.actors| == |r.actors| + CountFaction(infos, DEMON) && out.actors[..|r.actors|] == r.actors &&
      |out.spawnPoints| == |r.spawnPoints| + CountFaction(infos, SPAWNPOINT) &&
      forall i :: |r.actors| <= i < |out.actors| ==> out.actors[i].Some?
    decreases |infos|
  {
    if |infos| > 0 {
      var p := infos[..|infos| - 1];
      SpawnAllCounts(defs, vr, p, r);
      var mid := SpawnAll(defs, vr, p, r);
      var out := SpawnOne(defs, vr, infos[|infos| - 1], mid);
      assert out.actors[..|r.actors|] == mid.actors[..|mid.actors|][..|r.actors|];
      forall i | |r.actors| <= i < |out.actors|
        ensures out.actors[i].Some?
      {
        if i < |mid.actors| {
          assert out.actors[i] == out.actors[..|mid.actors|][i];
        }
      }
    }
  }

  /** The spawn loop one entry further. */
  lemma SpawnAllStep(defs: map<string, ActorDefinition>, vr: bool, infos: seq<SpawnInfo>, k: nat, r: Roster)
    requires k < |infos|
    ensures SpawnAll(defs, vr, infos[..k + 1], r) == SpawnOne(defs, vr, infos[k], SpawnAll(defs, vr, infos[..k], r))
  {
    assert infos[..k + 1][..k] == infos[..k];
  }

  /** What the whole spawn loop leaves: the counts of SpawnAllCounts and, slot by slot, the DEMON entries of SpawnAllDemons. */
  lemma SpawnAllFacts(defs: map<string, ActorDefinition>, vr: bool, infos: seq<SpawnInfo>, r: Roster)
    ensures var out := SpawnAll(defs, vr, infos, r);
      |out.actors| == |r.actors| + CountFaction(infos, DEMON) &&
      |out.spawnPoints| == |r.spawnPoints| + CountFaction(infos, SPAWNPOINT) &&
      (forall i :: |r.actors| <= i < |out.actors| ==> out.actors[i].Some?) &&
      forall j :: 0 <= j < CountFaction(infos, DEMON) ==> HoldsSpawned(defs, vr, out.actors, |r.actors| + j, Demons(infos)[j])
  {
    SpawnAllCounts(defs, vr, infos, r);
    forall j | 0 <= j < CountFaction(infos, DEMON)
      ensures HoldsSpawned(defs, vr, SpawnAll(defs, vr, infos, r).actors, |r.actors| + j, Demons(infos)[j])
    {
      SpawnAllDemons(defs, vr, infos, r, j);
    }
  }

  /** Slot i of s holds the actor built from the entry info, with a handle naming slot i. */
  predicate HoldsSpawned(defs: map<string, ActorDefinition>, vr: bool, s: seq<Option<Actor>>, i: nat, info: SpawnInfo)
  {
    i < |s| && s[i].Some? && s[i].value.uid.GetIndex() == i % HALF &&
    s[i].value == Spawned(defs, info, s[i].value.uid, AIIndex(s[i].value), vr)
  }

  /** Appending slots keeps what the earlier ones hold. */
  lemma HoldsSpawnedKept(defs: map<string, ActorDefinition>, vr: bool, s: seq<Option<Actor>>, t: seq<Option<Actor>>,
                         i: nat, info: SpawnInfo)
    requires HoldsSpawned(defs, vr, s, i, info) && |s| <= |t| && t[..|s|] == s
    ensures HoldsSpawned(defs, vr, t, i, info)
  {
    assert t[i] == t[..|s|][i];
  }

  /**
   * The j-th slot the spawn loop appends holds the actor built from the j-th
   * DEMON entry, with a handle naming that slot.
   */
  lemma {:induction false} SpawnAllDemons(defs: map<string, ActorDefinition>, vr: bool, infos: seq<SpawnInfo>, r: Roster,
                                          j: nat)
    requires j < CountFaction(infos, DEMON)
    ensures HoldsSpawned(defs, vr, SpawnAll(defs, vr, infos, r).actors, |r.actors| + j, Demons(infos)[j])
    decreases |infos|
  {
    var p := infos[..|infos| - 1];
    if j < CountFaction(p, DEMON) {
      SpawnAllDemons(defs, vr, p, r, j);
      DemonKept(defs, vr, infos, r, j);
    } else {
      LastDemon(defs, vr, infos, r, j);
    }
  }

  /** The step of SpawnAllDemons for a DEMON entry before the last one: the last entry only appends. */
  lemma DemonKept(defs: map<string, ActorDefinition>, vr: bool, infos: seq<SpawnInfo>, r: Roster, j: nat)
    requires |infos| > 0 && j < CountFaction(infos[..|infos| - 1], DEMON)
    requires HoldsSpawned(defs, vr, SpawnAll(defs, vr, infos[..|infos| - 1], r).actors, |r.actors| + j,
                          Demons(infos[..|infos| - 1])[j])
    ensures HoldsSpawned(defs, vr, SpawnAll(defs, vr, infos, r).actors, |r.actors| + j, Demons(infos)[j])
  {
    var p := infos[..|infos| - 1];
    var mid := SpawnAll(defs, vr, p, r);
    var out := SpawnOne(defs, vr, infos[|infos| - 1], mid);
    assert Demons(infos)[j] == Demons(p)[j];
    HoldsSpawnedKept(defs, vr, mid.actors, out.actors, |r.actors| + j, Demons(p)[j]);
  }

  /** The step of SpawnAllDemons for the last entry: a DEMON is appended right after the earlier slots. */
  lemma LastDemon(defs: map<string, ActorDefinition>, vr: bool, infos: seq<SpawnInfo>, r: Roster, j: nat)
    requires |infos| > 0 && CountFaction(infos[..|infos| - 1], DEMON) <= j < CountFaction(infos, DEMON)
    ensures HoldsSpawned(defs, vr, SpawnAll(defs, vr, infos, r).actors, |r.actors| + j, Demons(infos)[j])
  {
    var p := infos[..|infos| - 1];
    var last := infos[|infos| - 1];
    SpawnAllCounts(defs, vr, p, r);
    var mid := SpawnAll(defs, vr, p, r);
    assert GetFactionFromString(last.actor) == DEMON;
    assert Demons(infos) == Demons(p) + [last];
    var uid := Mint(mid.salt, |mid.actors|);
    assert SpawnAll(defs, vr, infos, r).actors == mid.actors + [Some(Spawned(defs, last, uid, |mid.ais|, vr))];
    SpawnedByIndex(defs, last, uid, |mid.ais|, vr);
  }

  /** An appended actor is Spawned with its own handle and controller index. */
  lemma SpawnedByIndex(defs: map<string, ActorDefinition>, info: SpawnInfo, uid: ActorUID, k: nat, vr: bool)
    ensures var a := Spawned(defs, info, uid, k, vr); a == Spawned(defs, info, a.uid, AIIndex(a), vr)
  {
    var a := Spawned(defs, info, uid, k, vr);
    if a.definition.aiEnabled {
      assert AIIndex(a) == k;
    }
  }
}
