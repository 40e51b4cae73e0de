/**
 * Weapon::Fire and Actor::Attack. A shot first passes the refire gate,
 * which consumes one elapsed refire period, and then needs its owner's
 * handle to resolve. The owner may recoil. Each ray damages the actor
 * RaycastVsAll reports, looked up again by its handle. Each projectile is
 * spawned stamped with the owner's handle. Each melee sweep hits every actor
 * of another valid faction inside the arc. Finally the drain loop consumes
 * whatever periods remain. Random rolls and VR hand poses are parameters.
 */
module Firing {

  import opened Wrappers
  import opened ActorUIDs
  import opened Geometry
  import opened WeaponDefinitions
  import opened ActorDefinitions
  import opened Weapons
  import opened Actors
  import opened ActorSlots
  import opened Maps
  import opened ControllerEvents

  /** Which of an actor's weapon lists a weapon sits in: m_weapons, or a VR hand's list. */
  datatype Hand = MainHand | LeftHand | RightHand

  function HandWeapons(a: Actor, h: Hand): seq<Weapon>
  {
    match h
    case MainHand => a.weapons
    case LeftHand => a.leftWeapons
    case RightHand => a.rightWeapons
  }

  /** The actor with weapon w of hand h replaced by x, everything else as it was. */
  function WithWeapon(a: Actor, h: Hand, w: nat, x: Weapon): (r: Actor)
    requires w < |HandWeapons(a, h)|
    ensures HandWeapons(r, h) == HandWeapons(a, h)[w := x]
    ensures ActorPending(r) + HandWeapons(a, h)[w].pending == ActorPending(a) + x.pending
    ensures r == a.(weapons := r.weapons, leftWeapons := r.leftWeapons, rightWeapons := r.rightWeapons)
    ensures Steady(a, r)
  {
    match h
    case MainHand =>
      PendingOfUpdate(a.weapons, w, x);
      a.(weapons := a.weapons[w := x])
    case LeftHand =>
      PendingOfUpdate(a.leftWeapons, w, x);
      a.(leftWeapons := a.leftWeapons[w := x])
    case RightHand =>
      PendingOfUpdate(a.rightWeapons, w, x);
      a.(rightWeapons := a.rightWeapons[w := x])
  }

  /** A VR hand controller's world position and orientation (OpenXR input). */
  datatype HandPose = HandPose(position: Vec3, orientation: EulerAngles)

  /**
   * The random rolls and VR poses one call to Fire reads: the fire direction
   * and damage of each ray, the direction of each projectile, the damage of
   * each melee blow by sweep and slot, and the two hand poses.
   */
  datatype FireRolls = FireRolls(
    rayDirection: nat -> Vec3,
    rayDamage: nat -> real,
    projectileDirection: nat -> Vec3,
    meleeDamage: (nat, nat) -> real,
    leftHand: HandPose,
    rightHand: HandPose)

  /**
   * Where the shots start and which way they go: the owner's eye pushed out
   * by its radius and a muzzle below it, or, for the Player in VR, the
   * firing hand; `straight` is set when the shots follow `forward` instead
   * of a rolled direction.
   */
  datatype Aim = Aim(eye: Vec3, firePosition: Vec3, forward: Vec3, straight: bool)

  function AimOf(em: EngineMath, owner: Actor, vr: bool, h: Hand, rolls: FireRolls): Aim
  {
    var forward := em.forwardOf(owner.orientation);
    var eye := EyePosition(em, owner).Plus(forward.Times(owner.physicsRadius));
    var fire := eye.Plus(GROUNDWARD.Times(owner.definition.physicsHeight * 0.1)).Plus(forward.Times(0.1));
    if vr && owner.controller == Some(PlayerCtl) then
      match h
      case LeftHand => Aim(rolls.leftHand.position, rolls.leftHand.position, em.forwardOf(rolls.leftHand.orientation), true)
      case RightHand => Aim(rolls.rightHand.position, rolls.rightHand.position, em.forwardOf(rolls.rightHand.orientation), true)
      case MainHand => Aim(eye, fire, forward, true)
    else Aim(eye, fire, forward, false)
  }

  /** A loop bound of the definition: a count below zero runs no iteration. */
  function Count(n: int): nat
  {
    if n < 0 then 0 else n
  }

  // ---------------------------------------------------------------- rays

  /**
   * The slot a ray shot damages: the actor RaycastVsAll reports (the owner's
   * slot excluded), looked up again by its handle; none for a wall, floor or
   * ceiling hit, a miss, or a handle that does not resolve.
   */
  function ShotTarget(m: Map, em: EngineMath, ray: Ray, owner: nat): (r: Option<nat>)
    reads m
    ensures r.Some? ==> r.value < |m.actors| && m.actors[r.value].Some?
  {
    ShotTargetIn(em, m.actors, m.WallRaycast(em, ray), ray, owner)
  }

  /** ShotTarget over a given slot array, with the ray's hit against the walls, floor and ceiling given. */
  function ShotTargetIn(em: EngineMath, s: seq<Option<Actor>>, wallHit: DoomRaycastResult, ray: Ray, owner: nat): (r: Option<nat>)
    ensures r.Some? ==> r.value < |s| && s[r.value].Some?
  {
    var result := NearerHit(ActorRaycast(em, s, Some(owner), ray, |s|), wallHit);
    if result.didImpact && result.impactActorUID != ActorUID.INVALID then Resolve(s, result.impactActorUID) else None
  }

  /**
   * One ray shot on the slot array: the slot ShotTargetIn names takes the
   * rolled damage; nothing else changes, and no slot is emptied or filled.
   */
  function Shot(em: EngineMath, s: seq<Option<Actor>>, wallHit: DoomRaycastResult, ray: Ray, owner: nat, damage: real)
    : (r: seq<Option<Actor>>)
    ensures |r| == |s|
    ensures forall k :: 0 <= k < |s| && Some(k) != ShotTargetIn(em, s, wallHit, ray, owner) ==> r[k] == s[k]
    ensures var t := ShotTargetIn(em, s, wallHit, ray, owner);
      t.Some? ==> r[t.value] == Some(TakeDamage(s[t.value].value, damage))
    ensures forall k :: 0 <= k < |s| ==> (r[k].Some? <==> s[k].Some?)
  {
    var t := ShotTargetIn(em, s, wallHit, ray, owner);
    if t.Some? then s[t.value := Some(TakeDamage(s[t.value].value, damage))] else s
  }

  /** Ray r of Fire: from the eye, along its rolled direction, or straight ahead in VR. */
  function RayOf(aim: Aim, rolls: FireRolls, d: WeaponDefinition, r: nat): Ray
  {
    Ray(aim.eye, if aim.straight then aim.forward else rolls.rayDirection(r), d.rayRange)
  }

  /**
   * The slot array after the first n rays of Fire, each shot in turn
   * against the given walls and the actors as the rays before it left
   * them (firing never changes the walls, floor or ceiling). A ray changes an actor only
   * through damage: every slot keeps its actor's handle, definition,
   * position and owner.
   */
  function Volley(em: EngineMath, walls: Walls, s: seq<Option<Actor>>, aim: Aim, rolls: FireRolls, d: WeaponDefinition,
                  owner: nat, n: nat): (r: seq<Option<Actor>>)
    ensures |r| == |s|
    ensures forall k :: 0 <= k < |s| ==> (r[k].Some? <==> s[k].Some?)
    ensures forall k :: 0 <= k < |s| && s[k].Some? ==>
      r[k].value.uid == s[k].value.uid && r[k].value.definition == s[k].value.definition &&
      r[k].value.position == s[k].value.position && r[k].value.ownerUID == s[k].value.ownerUID
  {
    if n == 0 then s
    else
      var ray := RayOf(aim, rolls, d, n - 1);
      Shot(em, Volley(em, walls, s, aim, rolls, d, owner, n - 1), WallHit(em, walls, ray), ray, owner, rolls.rayDamage(n - 1))
  }

  /**
   * While the map holds fewer than 2^16 slots, a ray shot damages exactly
   * the actor the ray hit, and never its own owner.
   */
  lemma ShotStrikesTheActorHit(m: Map, em: EngineMath, ray: Ray, owner: nat)
    requires m.Valid() && |m.actors| <= HALF && owner < |m.actors|
    ensures ShotTarget(m, em, ray, owner) != Some(owner)
    ensures ShotTarget(m, em, ray, owner).Some? ==>
      ShotTarget(m, em, ray, owner) == NearestActor(em, m.actors, Some(owner), ray, |m.actors|)
  {
    var actorHit := ActorRaycast(em, m.actors, Some(owner), ray, |m.actors|);
    var result := NearerHit(actorHit, m.WallRaycast(em, ray));
    if result.didImpact && result.impactActorUID != ActorUID.INVALID {
      assert result == actorHit;
      var k := NearestActor(em, m.actors, Some(owner), ray, |m.actors|).value;
      assert m.actors[k].value.uid.GetIndex() == k;
    }
  }

  /** A struck actor that has a controller tells it who the attacker was. */
  method NotifyVictim(m: Map, victim: nat, owner: nat)
    requires m.Valid() && victim < |m.actors| && m.actors[victim].Some? && owner < |m.actors| && m.actors[owner].Some?
    modifies m`actors, m`player, m`ais
    ensures m.actors == old(m.actors) && |m.ais| == old(|m.ais|)
    ensures old(m.actors[victim].value.controller).None? ==> m.player == old(m.player) && m.ais == old(m.ais)
    ensures m.Valid()
    ensures Listeners(m.ais, m.player) ==
      Notified(m.actors, Listeners(old(m.ais), old(m.player)), m.actors[victim].value.controller, owner)
  {
    var c := m.actors[victim].value.controller;
    if c.Some? {
      DamagedBy(m, c.value, Some(owner));
    }
  }

  /**
   * A blow landing on the actor in slot `victim`: the slot takes its new
   * state and the victim's controller, if any, hears who attacked.
   */
  method Strike(m: Map, victim: nat, owner: nat, blow: Actor)
    requires m.Valid() && victim < |m.actors| && m.actors[victim].Some? && owner < |m.actors| && m.actors[owner].Some?
    requires Persists(m.actors[victim].value, blow) && SameShape(m.actors[victim].value, blow)
    modifies m`actors, m`player, m`ais
    ensures m.actors == old(m.actors)[victim := Some(blow)] && |m.ais| == old(|m.ais|)
    ensures blow.controller.None? ==> m.player == old(m.player) && m.ais == old(m.ais)
    ensures m.Valid() && Evolves(old(m.actors), m.actors) && ShapesKept(old(m.actors), m.actors)
    ensures Listeners(m.ais, m.player) == Notified(m.actors, Listeners(old(m.ais), old(m.player)), blow.controller, owner)
  {
    UpdateShapesKept(m.actors, victim, blow);
    m.SetActor(victim, blow);
    NotifyVictim(m, victim, owner);
  }

  /**
   * One ray of Fire: the actor ShotTarget names takes the rolled damage (a
   * ray pushes nothing) and its controller, if any, hears who attacked.
   */
  method RayShot(m: Map, em: EngineMath, owner: nat, ray: Ray, damage: real) returns (struck: Option<nat>)
    requires m.Valid() && owner < |m.actors| && m.actors[owner].Some?
    modifies m`actors, m`player, m`ais
    ensures struck == old(ShotTarget(m, em, ray, owner))
    ensures struck.None? ==> m.actors == old(m.actors) && m.player == old(m.player) && m.ais == old(m.ais)
    ensures struck.Some? ==>
      m.actors == old(m.actors)[struck.value := Some(TakeDamage(old(m.actors[struck.value].value), damage))]
    ensures struck.Some? && old(m.actors[struck.value].value.controller).None? ==>
      m.player == old(m.player) && m.ais == old(m.ais)
    ensures |m.ais| == old(|m.ais|)
    ensures m.actors == Shot(em, old(m.actors), m.WallRaycast(em, ray), ray, owner, damage)
    ensures m.Valid() && Evolves(old(m.actors), m.actors) && ShapesKept(old(m.actors), m.actors)
    ensures struck.Some? ==>
      Listeners(m.ais, m.player) ==
        Notified(m.actors, Listeners(old(m.ais), old(m.player)), m.actors[struck.value].value.controller, owner)
  {
    EvolvesReflexive(m.actors);
    struck := FindShotTarget(m, em, owner, ray);
    if struck.None? {
      return;
    }
    var k := struck.value;
    DeathIsFinal(m.actors[k].value, damage, 0.0);
    Strike(m, k, owner, TakeDamage(m.actors[k].value, damage));
  }

  /** The raycast of one ray of Fire and the look-up of the actor it hit: the slot ShotTarget names. */
  method FindShotTarget(m: Map, em: EngineMath, owner: nat, ray: Ray) returns (struck: Option<nat>)
    requires m.Valid() && owner < |m.actors| && m.actors[owner].Some?
    ensures struck == ShotTarget(m, em, ray, owner)
  {
    var result := m.RaycastVsAll(em, ray, Some(owner));
    if !result.didImpact || result.impactActorUID == ActorUID.INVALID {
      return None;
    }
    struck := m.GetActorByUID(result.impactActorUID);
  }

  /** The ray loop of Fire: one RayShot per ray, along the rolled direction or straight ahead in VR. */
  method FireRays(m: Map, em: EngineMath, owner: nat, d: WeaponDefinition, aim: Aim, rolls: FireRolls)
    requires m.Valid() && owner < |m.actors| && m.actors[owner].Some?
    modifies m`actors, m`player, m`ais
    ensures d.rayCount <= 0 ==> m.actors == old(m.actors) && m.player == old(m.player) && m.ais == old(m.ais)
    ensures |m.actors| == old(|m.actors|) && |m.ais| == old(|m.ais|)
    ensures m.actors == Volley(em, m.WallsNow(), old(m.actors), aim, rolls, d, owner, Count(d.rayCount))
    ensures m.Valid() && Evolves(old(m.actors), m.actors) && ShapesKept(old(m.actors), m.actors)
  {
    EvolvesReflexive(m.actors);
    if d.rayCount <= 0 {
      return;
    }
    RayLoop(m, em, owner, d, aim, rolls, m.WallsNow(), m.actors, |m.ais|);
  }

  /** The loop of FireRays, from the state RaysSoFar describes after no ray to the one after every ray. */
  method RayLoop(m: Map, em: EngineMath, owner: nat, d: WeaponDefinition, aim: Aim, rolls: FireRolls,
                 ghost walls: Walls, ghost start: seq<Option<Actor>>, ghost ais: nat)
    requires RaysSoFar(m, em, walls, start, ais, aim, rolls, d, owner, 0)
    modifies m`actors, m`player, m`ais
    ensures RaysSoFar(m, em, walls, start, ais, aim, rolls, d, owner, Count(d.rayCount))
  {
    var n := Count(d.rayCount);
    var r: nat := 0;
    while r < n
      invariant r <= n
      invariant RaysSoFar(m, em, walls, start, ais, aim, rolls, d, owner, r)
    {
      NextRay(m, em, owner, d, aim, rolls, r, walls, start, ais);
      r := r + 1;
    }
  }

  /**
   * The state of the ray loop after r rays: the slot array is the volley
   * of r rays on the array the loop started from, and the map's invariant holds.
   */
  ghost predicate RaysSoFar(m: Map, em: EngineMath, walls: Walls, start: seq<Option<Actor>>, ais: nat, aim: Aim,
                            rolls: FireRolls, d: WeaponDefinition, owner: nat, r: nat)
    reads m
  {
    m.Valid() && m.WallsNow() == walls &&
    owner < |m.actors| && m.actors[owner].Some? && |m.actors| == |start| && |m.ais| == ais &&
    Evolves(start, m.actors) && ShapesKept(start, m.actors) &&
    m.actors == Volley(em, walls, start, aim, rolls, d, owner, r)
  }

  /** Ray r of the ray loop: one RayShot, which carries the volley one ray further. */
  method NextRay(m: Map, em: EngineMath, owner: nat, d: WeaponDefinition, aim: Aim, rolls: FireRolls, r: nat,
                 ghost walls: Walls, ghost start: seq<Option<Actor>>, ghost ais: nat)
    requires RaysSoFar(m, em, walls, start, ais, aim, rolls, d, owner, r)
    modifies m`actors, m`player, m`ais
    ensures RaysSoFar(m, em, walls, start, ais, aim, rolls, d, owner, r + 1)
  {
    ghost var before := m.actors;
    var _ := RayShot(m, em, owner, RayOf(aim, rolls, d, r), rolls.rayDamage(r));
    EvolvesTransitive(start, before, m.actors);
    ShapesKeptTransitive(start, before, m.actors);
  }

  // ---------------------------------------------------------------- projectiles

  /** A projectile of weapon definition d: its own actor definition, and the weapon's owner recorded as its owner. */
  predicate Projectile(defs: map<string, ActorDefinition>, o: Option<Actor>, d: WeaponDefinition, ownerUID: ActorUID)
  {
    o.Some? && o.value.definition == LookupActorDefinition(defs, d.projectileActor) && o.value.ownerUID == ownerUID
  }

  /**
   * The actor one pass of the projectile loop of Weapon::Fire leaves: the
   * projectile actor spawned at the fire position with the owner's
   * orientation pitched 10 degrees down, under handle uid (with AI
   * controller k if its definition enables AI), then stamped with the
   * weapon's owner and given an impulse of the fire direction times the
   * projectile speed.
   */
  function ProjectileActor(defs: map<string, ActorDefinition>, vr: bool, d: WeaponDefinition, ownerUID: ActorUID,
                           firePosition: Vec3, orientation: EulerAngles, direction: Vec3, uid: ActorUID, k: nat): (a: Actor)
    ensures a.uid == uid && a.definition == LookupActorDefinition(defs, d.projectileActor) && a.ownerUID == ownerUID
    ensures a.position == firePosition && a.orientation == orientation.(pitch := orientation.pitch - 10.0)
    ensures a.velocity == direction.Times(d.projectileSpeed)
  {
    var info := SpawnInfo(d.projectileActor, firePosition, orientation.(pitch := orientation.pitch - 10.0));
    AddImpulse(Spawned(defs, info, uid, k, vr).(ownerUID := ownerUID), direction.Times(d.projectileSpeed))
  }

  /**
   * What the projectile loop of Weapon::Fire starts from: the weapon's
   * owner handle, the aim, the owner's orientation, and the map's handle
   * salt and slot count.
   */
  datatype Launch = Launch(ownerUID: ActorUID, aim: Aim, orientation: EulerAngles, salt: nat, slots: nat)

  /** The fire direction of projectile p: straight ahead for a VR player, else the rolled direction in the cone. */
  function ProjectileDirection(aim: Aim, rolls: FireRolls, p: nat): Vec3
  {
    if aim.straight then aim.forward else rolls.projectileDirection(p)
  }

  /**
   * Slot o holds projectile p of a launch: the projectile actor under the
   * next handle after the p projectiles before it, stamped with the
   * weapon's owner, at the fire position with the owner's orientation
   * pitched 10 degrees down, moving with the impulse of its fire direction
   * times the projectile speed.
   */
  predicate LaunchedProjectile(defs: map<string, ActorDefinition>, d: WeaponDefinition, rolls: FireRolls, l: Launch,
                               o: Option<Actor>, p: nat)
  {
    o.Some? && o.value.uid == Mint(l.salt + p, l.slots + p) &&
    o.value.definition == LookupActorDefinition(defs, d.projectileActor) && o.value.ownerUID == l.ownerUID &&
    o.value.position == l.aim.firePosition && o.value.orientation == l.orientation.(pitch := l.orientation.pitch - 10.0) &&
    o.value.velocity == ProjectileDirection(l.aim, rolls, p).Times(d.projectileSpeed)
  }

  /** The slots from l.slots on are the launch's projectiles, in order. */
  predicate LaunchedFrom(defs: map<string, ActorDefinition>, d: WeaponDefinition, rolls: FireRolls, l: Launch,
                         s: seq<Option<Actor>>)
  {
    l.slots <= |s| && forall k :: l.slots <= k < |s| ==> LaunchedProjectile(defs, d, rolls, l, s[k], k - l.slots)
  }

  /** A launched projectile is a projectile of its weapon, stamped with the owner. */
  lemma LaunchedIsProjectile(defs: map<string, ActorDefinition>, d: WeaponDefinition, rolls: FireRolls, l: Launch,
                             s: seq<Option<Actor>>)
    requires LaunchedFrom(defs, d, rolls, l, s)
    ensures forall k :: l.slots <= k < |s| ==> Projectile(defs, s[k], d, l.ownerUID)
  {
  }

  /** One projectile: spawned at the fire position pitched 10 degrees down, stamped with the owner, and launched. */
  method SpawnProjectile(m: Map, d: WeaponDefinition, ownerUID: ActorUID, aim: Aim, orientation: EulerAngles,
                         direction: Vec3) returns (slot: nat)
    requires m.Valid()
    modifies m`actors, m`actorSalt, m`ais
    ensures slot == old(|m.actors|) && |m.actors| == slot + 1 && m.actors[..slot] == old(m.actors)
    ensures m.actors[slot] == Some(ProjectileActor(m.actorDefs, m.vr, d, ownerUID, aim.firePosition, orientation, direction,
                                                   Mint(old(m.actorSalt), slot), old(|m.ais|)))
    ensures m.actorSalt == old(m.actorSalt) + 1
    ensures |m.ais| == old(|m.ais|) + if LookupActorDefinition(m.actorDefs, d.projectileActor).aiEnabled then 1 else 0
    ensures m.Valid() && Evolves(old(m.actors), m.actors)
  {
    var info := SpawnInfo(d.projectileActor, aim.firePosition, orientation.(pitch := orientation.pitch - 10.0));
    ghost var born := Spawned(m.actorDefs, info, Mint(m.actorSalt, |m.actors|), |m.ais|, m.vr);
    ghost var launched := AddImpulse(born.(ownerUID := ownerUID), direction.Times(d.projectileSpeed));
    assert launched == ProjectileActor(m.actorDefs, m.vr, d, ownerUID, aim.firePosition, orientation, direction,
                                       Mint(m.actorSalt, |m.actors|), |m.ais|);
    slot := m.SpawnActor(info);
    var spawned := m.actors;
    var a := m.actors[slot].value;
    assert a == born;
    m.SetActor(slot, AddImpulse(a.(ownerUID := ownerUID), direction.Times(d.projectileSpeed)));
    EvolvesTransitive(old(m.actors), spawned, m.actors);
  }

  /**
   * The projectile loop of Fire: exactly projectileCount projectiles are
   * appended, projectile p in order, launched from the owner's orientation
   * as the loop starts.
   */
  method FireProjectiles(m: Map, owner: nat, d: WeaponDefinition, ownerUID: ActorUID, aim: Aim, rolls: FireRolls)
    requires m.Valid() && owner < |m.actors| && m.actors[owner].Some?
    modifies m`actors, m`actorSalt, m`ais
    ensures |m.actors| == old(|m.actors|) + Count(d.projectileCount)
    ensures m.actors[..old(|m.actors|)] == old(m.actors)
    ensures LaunchedFrom(m.actorDefs, d, rolls, Launch(ownerUID, aim, old(m.actors[owner].value.orientation),
                                                         old(m.actorSalt), old(|m.actors|)), m.actors)
    ensures forall k :: old(|m.actors|) <= k < |m.actors| ==> Projectile(m.actorDefs, m.actors[k], d, ownerUID)
    ensures m.actorSalt == old(m.actorSalt) + Count(d.projectileCount)
    ensures m.Valid() && Evolves(old(m.actors), m.actors)
  {
    EvolvesReflexive(m.actors);
    ghost var l := Launch(ownerUID, aim, m.actors[owner].value.orientation, m.actorSalt, |m.actors|);
    var p := 0;
    while p < d.projectileCount
      invariant 0 <= p <= Count(d.projectileCount)
      invariant |m.actors| == old(|m.actors|) + p && m.actors[..old(|m.actors|)] == old(m.actors)
      invariant LaunchedFrom(m.actorDefs, d, rolls, l, m.actors)
      invariant m.actorSalt == old(m.actorSalt) + p
      invariant m.Valid() && Evolves(old(m.actors), m.actors)
    {
      ghost var before := m.actors;
      assert m.actors[owner] == old(m.actors)[owner];
      NextProjectile(m, owner, d, ownerUID, aim, rolls, l, p);
      EvolvesTransitive(old(m.actors), before, m.actors);
      assert m.actors[..old(|m.actors|)] == before[..old(|m.actors|)];
      p := p + 1;
    }
    LaunchedIsProjectile(m.actorDefs, d, rolls, l, m.actors);
  }

  /** Pass p of the projectile loop: projectile p of the launch is appended. */
  method NextProjectile(m: Map, owner: nat, d: WeaponDefinition, ownerUID: ActorUID, aim: Aim, rolls: FireRolls,
                        ghost l: Launch, p: nat)
    requires m.Valid() && owner < |m.actors| && m.actors[owner].Some?
    requires l.ownerUID == ownerUID && l.aim == aim && l.orientation == m.actors[owner].value.orientation
    requires l.salt + p == m.actorSalt && l.slots + p == |m.actors| && LaunchedFrom(m.actorDefs, d, rolls, l, m.actors)
    modifies m`actors, m`actorSalt, m`ais
    ensures |m.actors| == old(|m.actors|) + 1 && m.actors[..old(|m.actors|)] == old(m.actors)
    ensures m.actorSalt == old(m.actorSalt) + 1
    ensures LaunchedFrom(m.actorDefs, d, rolls, l, m.actors)
    ensures m.Valid() && Evolves(old(m.actors), m.actors)
  {
    var slot := SpawnProjectile(m, d, ownerUID, aim, m.actors[owner].value.orientation, ProjectileDirection(aim, rolls, p));
    assert LaunchedProjectile(m.actorDefs, d, rolls, l, m.actors[slot], p);
    assert forall k :: l.slots <= k < slot ==> m.actors[k] == old(m.actors)[k];
  }

  // ---------------------------------------------------------------- melee

  /** The melee test for one slot: an actor of another, valid faction inside the weapon's arc and range. */
  predicate MeleeTarget(em: EngineMath, owner: Actor, o: Option<Actor>, d: WeaponDefinition)
  {
    o.Some? && o.value.definition.faction != owner.definition.faction && o.value.definition.faction != INVALID &&
    em.insideSector(o.value.position.XY(), owner.position.XY(), em.normalized2(em.forwardOf(owner.orientation).XY()),
                    d.meleeArc, d.meleeRange)
  }

  /** A melee blow: the rolled damage, then a push away from the attacker by the melee impulse. */
  function MeleeBlow(em: EngineMath, owner: Actor, a: Actor, d: WeaponDefinition, damage: real): (r: Actor)
    ensures r.position == a.position && r.definition == a.definition && r.ownerUID == a.ownerUID
    ensures SameShape(a, r) && Persists(a, r)
  {
    DeathIsFinal(a, damage, 0.0);
    AddImpulse(TakeDamage(a, damage), em.normalized(a.position.Minus(owner.position)).Times(d.meleeImpulse))
  }

  /** The melee step for slot k: a target takes a blow and its controller, if any, hears who attacked. */
  method MeleeStrike(m: Map, em: EngineMath, owner: nat, k: nat, d: WeaponDefinition, damage: real)
    requires m.Valid() && owner < |m.actors| && m.actors[owner].Some? && k < |m.actors|
    modifies m`actors, m`player, m`ais
    ensures !old(MeleeTarget(em, m.actors[owner].value, m.actors[k], d)) ==>
      m.actors == old(m.actors) && m.player == old(m.player) && m.ais == old(m.ais)
    ensures old(MeleeTarget(em, m.actors[owner].value, m.actors[k], d)) ==>
      m.actors == old(m.actors)[k := Some(MeleeBlow(em, old(m.actors[owner].value), old(m.actors[k].value), d, damage))]
    ensures |m.ais| == old(|m.ais|)
    ensures m.Valid() && Evolves(old(m.actors), m.actors) && ShapesKept(old(m.actors), m.actors)
    ensures old(MeleeTarget(em, m.actors[owner].value, m.actors[k], d)) ==>
      Listeners(m.ais, m.player) ==
        Notified(m.actors, Listeners(old(m.ais), old(m.player)), m.actors[k].value.controller, owner)
  {
    EvolvesReflexive(m.actors);
    var a := m.actors[owner].value;
    if MeleeTarget(em, a, m.actors[k], d) {
      Strike(m, k, owner, MeleeBlow(em, a, m.actors[k].value, d, damage));
    }
  }

  /**
   * One melee sweep over every slot: each target takes a blow; the owner's
   * faction, the INVALID faction and empty slots are skipped.
   */
  method MeleeSweep(m: Map, em: EngineMath, owner: nat, d: WeaponDefinition, rolls: FireRolls, sweep: nat)
    requires m.Valid() && owner < |m.actors| && m.actors[owner].Some?
    modifies m`actors, m`player, m`ais
    ensures |m.actors| == old(|m.actors|) && |m.ais| == old(|m.ais|)
    ensures forall k :: 0 <= k < |m.actors| ==>
      m.actors[k] == if old(MeleeTarget(em, m.actors[owner].value, m.actors[k], d))
                     then Some(MeleeBlow(em, old(m.actors[owner].value), old(m.actors[k].value), d, rolls.meleeDamage(sweep, k)))
                     else old(m.actors[k])
    ensures m.actors == Sweep(em, old(m.actors), owner, d, rolls, sweep)
    ensures m.Valid() && Evolves(old(m.actors), m.actors) && ShapesKept(old(m.actors), m.actors)
  {
    EvolvesReflexive(m.actors);
    var k := 0;
    while k < |m.actors|
      invariant 0 <= k <= |m.actors| == old(|m.actors|) && |m.ais| == old(|m.ais|)
      invariant m.actors[owner] == old(m.actors[owner])
      invariant forall j :: 0 <= j < k ==>
        m.actors[j] == if old(MeleeTarget(em, m.actors[owner].value, m.actors[j], d))
                       then Some(MeleeBlow(em, old(m.actors[owner].value), old(m.actors[j].value), d, rolls.meleeDamage(sweep, j)))
                       else old(m.actors[j])
      invariant forall j :: k <= j < |m.actors| ==> m.actors[j] == old(m.actors[j])
      invariant m.Valid() && Evolves(old(m.actors), m.actors) && ShapesKept(old(m.actors), m.actors)
    {
      ghost var before := m.actors;
      MeleeStrike(m, em, owner, k, d, rolls.meleeDamage(sweep, k));
      EvolvesTransitive(old(m.actors), before, m.actors);
      k := k + 1;
    }
  }

  /**
   * One melee sweep on the slot array, for the owner in slot `owner`: each
   * target of the owner, tested as the sweep reaches it, takes its blow.
   * The owner is never its own target, and a slot that is not a target is
   * untouched.
   */
  function Sweep(em: EngineMath, s: seq<Option<Actor>>, owner: nat, d: WeaponDefinition, rolls: FireRolls, sweep: nat)
    : (r: seq<Option<Actor>>)
    requires owner < |s| && s[owner].Some?
    ensures |r| == |s| && r[owner] == s[owner]
    ensures forall k :: 0 <= k < |s| && !MeleeTarget(em, s[owner].value, s[k], d) ==> r[k] == s[k]
    ensures forall k :: 0 <= k < |s| && MeleeTarget(em, s[owner].value, s[k], d) ==>
      r[k] == Some(MeleeBlow(em, s[owner].value, s[k].value, d, rolls.meleeDamage(sweep, k)))
    ensures forall k :: 0 <= k < |s| ==>
      (r[k].Some? <==> s[k].Some?) &&
      (r[k].Some? ==> r[k].value.position == s[k].value.position && r[k].value.definition == s[k].value.definition &&
                      r[k].value.ownerUID == s[k].value.ownerUID)
  {
    var r := seq(|s|, k requires 0 <= k < |s| => Blown(em, s, owner, d, rolls, sweep, k));
    assert !MeleeTarget(em, s[owner].value, s[owner], d);
    assert forall k :: 0 <= k < |s| ==> r[k] == Blown(em, s, owner, d, rolls, sweep, k);
    r
  }

  /** Slot k after the sweep reaches it: a blow if it holds a target of the owner, else as it was. */
  function Blown(em: EngineMath, s: seq<Option<Actor>>, owner: nat, d: WeaponDefinition, rolls: FireRolls, sweep: nat, k: nat)
    : (o: Option<Actor>)
    requires owner < |s| && s[owner].Some? && k < |s|
    ensures o.Some? <==> s[k].Some?
    ensures o.Some? ==> o.value.position == s[k].value.position && o.value.definition == s[k].value.definition &&
                        o.value.ownerUID == s[k].value.ownerUID
  {
    if MeleeTarget(em, s[owner].value, s[k], d)
    then Some(MeleeBlow(em, s[owner].value, s[k].value, d, rolls.meleeDamage(sweep, k)))
    else s[k]
  }

  /**
   * The slot array after the first n melee sweeps of Fire, each against the
   * actors as the sweeps before it left them. The owner is untouched, and so
   * is every slot that is not a target of the owner; every slot keeps its
   * actor's definition, position and owner.
   */
  function Melee(em: EngineMath, s: seq<Option<Actor>>, owner: nat, d: WeaponDefinition, rolls: FireRolls, n: nat)
    : (r: seq<Option<Actor>>)
    requires owner < |s| && s[owner].Some?
    ensures |r| == |s| && r[owner] == s[owner]
    ensures forall k :: 0 <= k < |s| && !MeleeTarget(em, s[owner].value, s[k], d) ==> r[k] == s[k]
    ensures forall k :: 0 <= k < |s| ==>
      (r[k].Some? <==> s[k].Some?) &&
      (r[k].Some? ==> r[k].value.position == s[k].value.position && r[k].value.definition == s[k].value.definition &&
                      r[k].value.ownerUID == s[k].value.ownerUID)
  {
    if n == 0 then s else Sweep(em, Melee(em, s, owner, d, rolls, n - 1), owner, d, rolls, n - 1)
  }

  /** The melee loop of Fire: meleeCount sweeps; the owner's faction and the INVALID faction are never touched. */
  method FireMelee(m: Map, em: EngineMath, owner: nat, d: WeaponDefinition, rolls: FireRolls)
    requires m.Valid() && owner < |m.actors| && m.actors[owner].Some?
    modifies m`actors, m`player, m`ais
    ensures |m.actors| == old(|m.actors|)
    ensures forall k :: 0 <= k < |m.actors| && !old(MeleeTarget(em, m.actors[owner].value, m.actors[k], d)) ==>
      m.actors[k] == old(m.actors[k])
    ensures forall k :: 0 <= k < |m.actors| ==>
      (m.actors[k].Some? <==> old(m.actors[k]).Some?) &&
      (m.actors[k].Some? ==> m.actors[k].value.position == old(m.actors[k].value.position) &&
                             m.actors[k].value.definition == old(m.actors[k].value.definition) &&
                             m.actors[k].value.ownerUID == old(m.actors[k].value.ownerUID))
    ensures m.actors == Melee(em, old(m.actors), owner, d, rolls, Count(d.meleeCount))
    ensures m.Valid() && Evolves(old(m.actors), m.actors) && ShapesKept(old(m.actors), m.actors)
  {
    EvolvesReflexive(m.actors);
    MeleeLoop(m, em, owner, d, rolls, m.actors);
  }

  /**
   * The state of the melee loop after n sweeps: the slot array is the n
   * sweeps' Melee on the array the loop started from, and the map's
   * invariant holds.
   */
  ghost predicate SweepsSoFar(m: Map, em: EngineMath, start: seq<Option<Actor>>, owner: nat, d: WeaponDefinition,
                              rolls: FireRolls, n: nat)
    reads m
  {
    m.Valid() && owner < |start| && start[owner].Some? &&
    Evolves(start, m.actors) && ShapesKept(start, m.actors) &&
    m.actors == Melee(em, start, owner, d, rolls, n)
  }

  /** The loop of FireMelee, from the state SweepsSoFar describes after no sweep to the one after every sweep. */
  method MeleeLoop(m: Map, em: EngineMath, owner: nat, d: WeaponDefinition, rolls: FireRolls,
                   ghost start: seq<Option<Actor>>)
    requires SweepsSoFar(m, em, start, owner, d, rolls, 0)
    modifies m`actors, m`player, m`ais
    ensures SweepsSoFar(m, em, start, owner, d, rolls, Count(d.meleeCount))
  {
    var n := Count(d.meleeCount);
    var sweep: nat := 0;
    while sweep < n
      invariant sweep <= n
      invariant SweepsSoFar(m, em, start, owner, d, rolls, sweep)
    {
      NextSweep(m, em, owner, d, rolls, sweep, start);
      sweep := sweep + 1;
    }
  }

  /** Sweep n of the melee loop: one MeleeSweep, which carries Melee one sweep further. */
  method NextSweep(m: Map, em: EngineMath, owner: nat, d: WeaponDefinition, rolls: FireRolls, n: nat,
                   ghost start: seq<Option<Actor>>)
    requires SweepsSoFar(m, em, start, owner, d, rolls, n)
    modifies m`actors, m`player, m`ais
    ensures SweepsSoFar(m, em, start, owner, d, rolls, n + 1)
  {
    ghost var before := m.actors;
    MeleeSweep(m, em, owner, d, rolls, n);
    EvolvesTransitive(start, before, m.actors);
    ShapesKeptTransitive(start, before, m.actors);
  }

  // ---------------------------------------------------------------- Fire

  /** The slot array after the recoil: the Player's actor, without a VR headset, pitches up by the recoil angle. */
  function Recoiled(s: seq<Option<Actor>>, owner: nat, d: WeaponDefinition, vr: bool): (r: seq<Option<Actor>>)
    requires owner < |s| && s[owner].Some?
    ensures |r| == |s| && r[owner].Some?
    ensures forall k :: 0 <= k < |s| && k != owner ==> r[k] == s[k]
    ensures vr || s[owner].value.controller != Some(PlayerCtl) ==> r == s
    ensures r[owner].value.orientation.pitch ==
      s[owner].value.orientation.pitch - (if !vr && s[owner].value.controller == Some(PlayerCtl) then d.recoilAngle else 0.0)
  {
    var a := s[owner].value;
    if !vr && a.controller == Some(PlayerCtl) then s[owner := Some(a.(orientation := a.orientation.(pitch := a.orientation.pitch - d.recoilAngle)))]
    else s
  }

  /** Pitching the Player's view up by the recoil angle; only without a VR headset. */
  method Recoil(m: Map, owner: nat, d: WeaponDefinition)
    requires m.Valid() && owner < |m.actors| && m.actors[owner].Some?
    modifies m`actors
    ensures !m.vr && old(m.actors[owner].value.controller) == Some(PlayerCtl) ==>
      var a := old(m.actors[owner].value);
      m.actors == old(m.actors)[owner := Some(a.(orientation := a.orientation.(pitch := a.orientation.pitch - d.recoilAngle)))]
    ensures m.vr || old(m.actors[owner].value.controller) != Some(PlayerCtl) ==> m.actors == old(m.actors)
    ensures m.actors == Recoiled(old(m.actors), owner, d, m.vr)
    ensures m.Valid() && Evolves(old(m.actors), m.actors) && ShapesKept(old(m.actors), m.actors)
  {
    EvolvesReflexive(m.actors);
    var a := m.actors[owner].value;
    if !m.vr && a.controller == Some(PlayerCtl) {
      m.SetActor(owner, a.(orientation := a.orientation.(pitch := a.orientation.pitch - d.recoilAngle)));
    }
  }

  /**
   * Everything Fire does once its owner resolves, up to the drain loop: the
   * recoil; the rays, aimed from the recoiled owner (`shot` is the slot
   * array after them); the projectiles, appended after the existing slots
   * (`launched` is the slot array after them); and the melee sweeps.
   */
  method FireResolved(m: Map, em: EngineMath, owner: nat, d: WeaponDefinition, ownerUID: ActorUID, h: Hand,
                      rolls: FireRolls) returns (ghost shot: seq<Option<Actor>>, ghost launched: seq<Option<Actor>>)
    requires m.Valid() && owner < |m.actors| && m.actors[owner].Some?
    modifies m`actors, m`actorSalt, m`ais, m`player
    ensures var recoiled := Recoiled(old(m.actors), owner, d, m.vr);
      shot == Volley(em, m.WallsNow(), recoiled, AimOf(em, recoiled[owner].value, m.vr, h, rolls), rolls, d, owner, Count(d.rayCount))
    ensures |launched| == |shot| + Count(d.projectileCount) && launched[..|shot|] == shot
    ensures forall k :: |shot| <= k < |launched| ==> Projectile(m.actorDefs, launched[k], d, ownerUID)
    ensures owner < |shot| && shot[owner].Some? &&
      LaunchedFrom(m.actorDefs, d, rolls, Launch(ownerUID, AimOf(em, Recoiled(old(m.actors), owner, d, m.vr)[owner].value, m.vr, h, rolls),
                                                 shot[owner].value.orientation, old(m.actorSalt), |shot|), launched)
    ensures owner < |launched| && launched[owner].Some?
    ensures m.actors == Melee(em, launched, owner, d, rolls, Count(d.meleeCount))
    ensures |m.actors| == old(|m.actors|) + Count(d.projectileCount)
    ensures forall k :: old(|m.actors|) <= k < |m.actors| ==> Projectile(m.actorDefs, m.actors[k], d, ownerUID)
    ensures m.Valid() && Evolves(old(m.actors), m.actors) && ShapesKept(old(m.actors), m.actors)
  {
    shot, launched := ShootAndLaunch(m, em, owner, d, ownerUID, h, rolls);
    FireMelee(m, em, owner, d, rolls);
    EvolvesTransitive(old(m.actors), launched, m.actors);
    ShapesKeptTransitive(old(m.actors), launched, m.actors);
  }

  /** The first half of FireResolved: the recoil, the ray loop and the projectile loop. */
  method ShootAndLaunch(m: Map, em: EngineMath, owner: nat, d: WeaponDefinition, ownerUID: ActorUID, h: Hand,
                        rolls: FireRolls) returns (ghost shot: seq<Option<Actor>>, ghost launched: seq<Option<Actor>>)
    requires m.Valid() && owner < |m.actors| && m.actors[owner].Some?
    modifies m`actors, m`actorSalt, m`ais, m`player
    ensures var recoiled := Recoiled(old(m.actors), owner, d, m.vr);
      shot == Volley(em, m.WallsNow(), recoiled, AimOf(em, recoiled[owner].value, m.vr, h, rolls), rolls, d, owner, Count(d.rayCount))
    ensures |shot| == old(|m.actors|)
    ensures |launched| == |shot| + Count(d.projectileCount) && launched[..|shot|] == shot
    ensures forall k :: |shot| <= k < |launched| ==> Projectile(m.actorDefs, launched[k], d, ownerUID)
    ensures owner < |shot| && shot[owner].Some? &&
      LaunchedFrom(m.actorDefs, d, rolls, Launch(ownerUID, AimOf(em, Recoiled(old(m.actors), owner, d, m.vr)[owner].value, m.vr, h, rolls),
                                                 shot[owner].value.orientation, old(m.actorSalt), |shot|), launched)
    ensures owner < |launched| && launched[owner].Some? && m.actors == launched
    ensures m.Valid() && Evolves(old(m.actors), m.actors) && ShapesKept(old(m.actors), m.actors)
  {
    var aim := Shoot(m, em, owner, d, h, rolls);
    shot := m.actors;
    FireProjectiles(m, owner, d, ownerUID, aim, rolls);
    launched := m.actors;
    assert launched[owner] == shot[owner] by {
      assert launched[..|shot|][owner] == shot[owner];
    }
    assert ShapesKept(shot, launched) by {
      forall k | 0 <= k < |shot| && shot[k].Some?
        ensures launched[k] == shot[k]
      {
        assert launched[..|shot|][k] == shot[k];
      }
    }
    EvolvesTransitive(old(m.actors), shot, launched);
    ShapesKeptTransitive(old(m.actors), shot, launched);
  }

  /** The recoil and the ray loop, aimed from the recoiled owner; `aim` is that aim. */
  method Shoot(m: Map, em: EngineMath, owner: nat, d: WeaponDefinition, h: Hand, rolls: FireRolls) returns (aim: Aim)
    requires m.Valid() && owner < |m.actors| && m.actors[owner].Some?
    modifies m`actors, m`player, m`ais
    ensures var recoiled := Recoiled(old(m.actors), owner, d, m.vr);
      aim == AimOf(em, recoiled[owner].value, m.vr, h, rolls) &&
      m.actors == Volley(em, m.WallsNow(), recoiled, aim, rolls, d, owner, Count(d.rayCount))
    ensures |m.actors| == old(|m.actors|) && owner < |m.actors| && m.actors[owner].Some?
    ensures m.Valid() && Evolves(old(m.actors), m.actors) && ShapesKept(old(m.actors), m.actors)
  {
    Recoil(m, owner, d);
    ghost var recoiled := m.actors;
    aim := AimOf(em, m.actors[owner].value, m.vr, h, rolls);
    FireRays(m, em, owner, d, aim, rolls);
    EvolvesTransitive(old(m.actors), recoiled, m.actors);
    ShapesKeptTransitive(old(m.actors), recoiled, m.actors);
  }

  /** The refire gate of Weapon::Fire: one elapsed refire period of the weapon is consumed, if there is one. */
  method ConsumePeriod(m: Map, holder: nat, h: Hand, w: nat) returns (elapsed: bool)
    requires m.Valid() && holder < |m.actors| && m.actors[holder].Some? && w < |HandWeapons(m.actors[holder].value, h)|
    modifies m`actors
    ensures var weapon := old(HandWeapons(m.actors[holder].value, h)[w]);
      (elapsed <==> weapon.pending > 0) &&
      (!elapsed ==> m.actors == old(m.actors)) &&
      (elapsed ==> m.actors == old(m.actors)[holder := Some(WithWeapon(old(m.actors[holder].value), h, w,
                                                                       weapon.(pending := weapon.pending - 1)))]) &&
      m.GetActorByUID(weapon.ownerUID) == old(m.GetActorByUID(weapon.ownerUID))
    ensures elapsed ==> TotalPending(m.actors) < old(TotalPending(m.actors))
    ensures m.Valid() && Evolves(old(m.actors), m.actors) && SlotsKept(old(m.actors), m.actors)
  {
    EvolvesReflexive(m.actors);
    var a := m.actors[holder].value;
    var weapon := HandWeapons(a, h)[w];
    var gate := DecrementIfElapsed(weapon);
    if !gate.0 {
      return false;
    }
    m.SetActor(holder, WithWeapon(a, h, w, gate.1));
    EvolvesPendingStrict(old(m.actors), m.actors, holder);
    assert m.GetActorByUID(weapon.ownerUID) == old(m.GetActorByUID(weapon.ownerUID));
    elapsed := true;
  }

  /**
   * The shot of weapon w of hand h of the actor in slot `holder`, from the
   * slot array s once the refire gate has passed: the weapon's owner
   * resolves; `shot` is the Volley of its rays aimed from the recoiled
   * owner; `launched` is `shot` with exactly projectileCount projectiles
   * stamped with the owner appended; `resolved` is the Melee of its sweeps
   * on `launched`; and `after` is `resolved` with the weapon's elapsed
   * periods drained.
   */
  ghost predicate Discharged(em: EngineMath, walls: Walls, vr: bool, defs: map<string, ActorDefinition>, salt: nat,
                             s: seq<Option<Actor>>, holder: nat, h: Hand, w: nat, rolls: FireRolls,
                             shot: seq<Option<Actor>>, launched: seq<Option<Actor>>, resolved: seq<Option<Actor>>,
                             after: seq<Option<Actor>>)
  {
    holder < |s| && s[holder].Some? && w < |HandWeapons(s[holder].value, h)| &&
    var weapon := HandWeapons(s[holder].value, h)[w];
    var d := weapon.definition;
    var owner := Resolve(s, weapon.ownerUID);
    owner.Some? &&
    var recoiled := Recoiled(s, owner.value, d, vr);
    var aim := AimOf(em, recoiled[owner.value].value, vr, h, rolls);
    shot == Volley(em, walls, recoiled, aim, rolls, d, owner.value, Count(d.rayCount)) &&
    |launched| == |shot| + Count(d.projectileCount) && launched[..|shot|] == shot &&
    owner.value < |shot| && shot[owner.value].Some? &&
    LaunchedFrom(defs, d, rolls, Launch(weapon.ownerUID, aim, shot[owner.value].value.orientation, salt, |shot|), launched) &&
    owner.value < |launched| && launched[owner.value].Some? &&
    resolved == Melee(em, launched, owner.value, d, rolls, Count(d.meleeCount)) &&
    holder < |resolved| && resolved[holder].Some? && w < |HandWeapons(resolved[holder].value, h)| &&
    var held := resolved[holder].value;
    after == resolved[holder := Some(WithWeapon(held, h, w, HandWeapons(held, h)[w].(pending := 0)))]
  }

  /** What FireResolved and DrainHeld establish, on values, is a Discharged shot. */
  lemma DischargedIntro(em: EngineMath, walls: Walls, vr: bool, defs: map<string, ActorDefinition>, salt: nat,
                        s: seq<Option<Actor>>, holder: nat, h: Hand, w: nat, rolls: FireRolls, owner: nat,
                        shot: seq<Option<Actor>>, launched: seq<Option<Actor>>, resolved: seq<Option<Actor>>,
                        after: seq<Option<Actor>>)
    requires holder < |s| && s[holder].Some? && w < |HandWeapons(s[holder].value, h)|
    requires Resolve(s, HandWeapons(s[holder].value, h)[w].ownerUID) == Some(owner)
    requires var d := HandWeapons(s[holder].value, h)[w].definition;
      var recoiled := Recoiled(s, owner, d, vr);
      shot == Volley(em, walls, recoiled, AimOf(em, recoiled[owner].value, vr, h, rolls), rolls, d, owner, Count(d.rayCount))
    requires var weapon := HandWeapons(s[holder].value, h)[w];
      var recoiled := Recoiled(s, owner, weapon.definition, vr);
      |launched| == |shot| + Count(weapon.definition.projectileCount) && launched[..|shot|] == shot &&
      owner < |shot| && shot[owner].Some? &&
      LaunchedFrom(defs, weapon.definition, rolls,
                   Launch(weapon.ownerUID, AimOf(em, recoiled[owner].value, vr, h, rolls), shot[owner].value.orientation,
                          salt, |shot|), launched) &&
      owner < |launched| && launched[owner].Some? &&
      resolved == Melee(em, launched, owner, weapon.definition, rolls, Count(weapon.definition.meleeCount))
    requires holder < |resolved| && resolved[holder].Some? && w < |HandWeapons(resolved[holder].value, h)|
    requires var held := resolved[holder].value;
      after == resolved[holder := Some(WithWeapon(held, h, w, HandWeapons(held, h)[w].(pending := 0)))]
    requires var weapon := HandWeapons(s[holder].value, h)[w];
      HandWeapons(resolved[holder].value, h)[w] == weapon &&
      |resolved| == |s| + Count(weapon.definition.projectileCount) &&
      forall k :: |s| <= k < |resolved| ==> Projectile(defs, resolved[k], weapon.definition, weapon.ownerUID)
    ensures Discharged(em, walls, vr, defs, salt, s, holder, h, w, rolls, shot, launched, resolved, after)
    ensures var weapon := HandWeapons(s[holder].value, h)[w];
      after[holder].Some? && w < |HandWeapons(after[holder].value, h)| &&
      HandWeapons(after[holder].value, h)[w] == weapon.(pending := 0) &&
      |after| == |s| + Count(weapon.definition.projectileCount) &&
      forall k :: |s| <= k < |after| ==> Projectile(defs, after[k], weapon.definition, weapon.ownerUID)
  {
  }

  /**
   * Weapon::Fire when it fires, from the slot array s: the weapon has an
   * elapsed refire period, one is consumed, and the shot is Discharged
   * from there.
   */
  ghost predicate FiredFrom(em: EngineMath, walls: Walls, vr: bool, defs: map<string, ActorDefinition>, salt: nat,
                            s: seq<Option<Actor>>, holder: nat, h: Hand, w: nat, rolls: FireRolls,
                            shot: seq<Option<Actor>>, launched: seq<Option<Actor>>, resolved: seq<Option<Actor>>,
                            after: seq<Option<Actor>>)
  {
    holder < |s| && s[holder].Some? && w < |HandWeapons(s[holder].value, h)| &&
    var weapon := HandWeapons(s[holder].value, h)[w];
    weapon.pending > 0 &&
    Discharged(em, walls, vr, defs, salt, s[holder := Some(WithWeapon(s[holder].value, h, w, weapon.(pending := weapon.pending - 1)))],
               holder, h, w, rolls, shot, launched, resolved, after)
  }

  /**
   * The part of Weapon::Fire after the refire gate: when the weapon's owner
   * handle resolves, the shot is fired and the drain loop consumes every
   * elapsed period left on the weapon; otherwise nothing happens.
   */
  method Discharge(m: Map, em: EngineMath, holder: nat, h: Hand, w: nat, rolls: FireRolls)
    returns (fired: bool, ghost shot: seq<Option<Actor>>, ghost launched: seq<Option<Actor>>,
             ghost resolved: seq<Option<Actor>>)
    requires m.Valid() && holder < |m.actors| && m.actors[holder].Some? && w < |HandWeapons(m.actors[holder].value, h)|
    modifies m`actors, m`actorSalt, m`ais, m`player
    ensures fired <==> old(m.GetActorByUID(HandWeapons(m.actors[holder].value, h)[w].ownerUID)).Some?
    ensures !fired ==>
      m.actors == old(m.actors) && m.actorSalt == old(m.actorSalt) && m.ais == old(m.ais) && m.player == old(m.player)
    ensures old(|m.actors|) <= |m.actors|
    ensures var weapon := old(HandWeapons(m.actors[holder].value, h)[w]);
      fired ==>
        m.actors[holder].Some? && w < |HandWeapons(m.actors[holder].value, h)| &&
        HandWeapons(m.actors[holder].value, h)[w] == weapon.(pending := 0) &&
        |m.actors| == old(|m.actors|) + Count(weapon.definition.projectileCount) &&
        forall k :: old(|m.actors|) <= k < |m.actors| ==>
          Projectile(m.actorDefs, m.actors[k], weapon.definition, weapon.ownerUID)
    ensures m.Valid() && Evolves(old(m.actors), m.actors) && SlotsKept(old(m.actors), m.actors)
    ensures fired ==>
      Discharged(em, m.WallsNow(), m.vr, m.actorDefs, old(m.actorSalt), old(m.actors), holder, h, w, rolls, shot, launched, resolved, m.actors)
  {
    shot, launched, resolved := [], [], [];
    EvolvesReflexive(m.actors);
    var weapon := HandWeapons(m.actors[holder].value, h)[w];
    var owner := m.GetActorByUID(weapon.ownerUID);
    if owner.None? {
      fired := false;
      return;
    }
    fired := true;
    ghost var s0, walls := m.actors, m.WallsNow();
    shot, launched := FireResolved(m, em, owner.value, weapon.definition, weapon.ownerUID, h, rolls);
    resolved := m.actors;
    DrainHeld(m, holder, h, w);
    DischargedIntro(em, walls, m.vr, m.actorDefs, old(m.actorSalt), s0, holder, h, w, rolls, owner.value, shot, launched, resolved, m.actors);
    EvolvesTransitive(old(m.actors), resolved, m.actors);
    ShapesKeptSlotsKept(old(m.actors), resolved);
    SlotsKeptTransitive(old(m.actors), resolved, m.actors);
  }

  /** The drain loop of Weapon::Fire on weapon w of hand h of the actor in slot `holder`: no elapsed period is left. */
  method DrainHeld(m: Map, holder: nat, h: Hand, w: nat)
    requires m.Valid() && holder < |m.actors| && m.actors[holder].Some? && w < |HandWeapons(m.actors[holder].value, h)|
    modifies m`actors
    ensures var held := old(m.actors[holder].value);
      m.actors == old(m.actors)[holder := Some(WithWeapon(held, h, w, HandWeapons(held, h)[w].(pending := 0)))]
    ensures m.Valid() && Evolves(old(m.actors), m.actors) && SlotsKept(old(m.actors), m.actors)
  {
    var held := m.actors[holder].value;
    var drained := DrainElapsed(HandWeapons(held, h)[w]);
    UpdateSlotsKept(m.actors, holder, WithWeapon(held, h, w, drained));
    m.SetActor(holder, WithWeapon(held, h, w, drained));
  }

  /**
   * Weapon::Fire for weapon w of hand h of the actor in slot `holder`.
   * Without an elapsed refire period nothing happens. Otherwise one period
   * is consumed and, when the weapon's owner handle does not resolve,
   * nothing more. Once it resolves the shot is fired, exactly
   * projectileCount projectiles stamped with the owner appear, and the
   * drain loop leaves no elapsed period, so one call fires at most once.
   */
  method Fire(m: Map, em: EngineMath, holder: nat, h: Hand, w: nat, rolls: FireRolls)
    returns (fired: bool, ghost shot: seq<Option<Actor>>, ghost launched: seq<Option<Actor>>,
             ghost resolved: seq<Option<Actor>>)
    requires m.Valid() && holder < |m.actors| && m.actors[holder].Some? && w < |HandWeapons(m.actors[holder].value, h)|
    modifies m`actors, m`actorSalt, m`ais, m`player
    ensures var weapon := old(HandWeapons(m.actors[holder].value, h)[w]);
      fired <==> weapon.pending > 0 && old(m.GetActorByUID(weapon.ownerUID)).Some?
    ensures old(HandWeapons(m.actors[holder].value, h)[w].pending) == 0 ==>
      m.actors == old(m.actors) && m.actorSalt == old(m.actorSalt) && m.ais == old(m.ais) && m.player == old(m.player)
    ensures var weapon := old(HandWeapons(m.actors[holder].value, h)[w]);
      weapon.pending > 0 && !fired ==>
        m.actors == old(m.actors)[holder := Some(WithWeapon(old(m.actors[holder].value), h, w,
                                                            weapon.(pending := weapon.pending - 1)))] &&
        m.actorSalt == old(m.actorSalt) && m.ais == old(m.ais) && m.player == old(m.player)
    ensures old(|m.actors|) <= |m.actors|
    ensures var weapon := old(HandWeapons(m.actors[holder].value, h)[w]);
      fired ==>
        m.actors[holder].Some? && w < |HandWeapons(m.actors[holder].value, h)| &&
        HandWeapons(m.actors[holder].value, h)[w] == weapon.(pending := 0) &&
        |m.actors| == old(|m.actors|) + Count(weapon.definition.projectileCount) &&
        forall k :: old(|m.actors|) <= k < |m.actors| ==>
          Projectile(m.actorDefs, m.actors[k], weapon.definition, weapon.ownerUID)
    ensures old(HandWeapons(m.actors[holder].value, h)[w].pending) > 0 ==>
      TotalPending(m.actors) < old(TotalPending(m.actors))
    ensures m.Valid() && Evolves(old(m.actors), m.actors) && SlotsKept(old(m.actors), m.actors)
    ensures fired ==>
      FiredFrom(em, m.WallsNow(), m.vr, m.actorDefs, old(m.actorSalt), old(m.actors), holder, h, w, rolls, shot, launched, resolved, m.actors)
  {
    shot, launched, resolved := [], [], [];
    var elapsed := ConsumePeriod(m, holder, h, w);
    if !elapsed {
      fired := false;
      return;
    }
    ghost var consumed := m.actors;
    fired, shot, launched, resolved := Discharge(m, em, holder, h, w, rolls);
    EvolvesTransitive(old(m.actors), consumed, m.actors);
    EvolvesPending(consumed, m.actors);
    SlotsKeptTransitive(old(m.actors), consumed, m.actors);
  }

  /**
   * Actor::Attack: a dead actor, or one with no weapon equipped (index -1),
   * does nothing; otherwise the equipped weapon fires.
   */
  method Attack(m: Map, em: EngineMath, i: nat, rolls: FireRolls)
    returns (fired: bool, ghost shot: seq<Option<Actor>>, ghost launched: seq<Option<Actor>>,
             ghost resolved: seq<Option<Actor>>)
    requires m.Valid() && i < |m.actors| && m.actors[i].Some?
    modifies m`actors, m`actorSalt, m`ais, m`player
    ensures old(m.actors[i].value.isDead) || old(m.actors[i].value.equippedWeaponIndex) == -1 ==>
      !fired && m.actors == old(m.actors) && m.actorSalt == old(m.actorSalt) && m.ais == old(m.ais) &&
      m.player == old(m.player)
    ensures old(|m.actors|) <= |m.actors|
    ensures fired ==> m.actors[i].Some? && 0 <= m.actors[i].value.equippedWeaponIndex < |m.actors[i].value.weapons| &&
                      m.actors[i].value.weapons[m.actors[i].value.equippedWeaponIndex].pending == 0
    ensures |m.actors| > old(|m.actors|) ==> TotalPending(m.actors) < old(TotalPending(m.actors))
    ensures m.Valid() && Evolves(old(m.actors), m.actors) && SlotsKept(old(m.actors), m.actors)
    ensures var a := old(m.actors[i].value);
      !a.isDead && a.equippedWeaponIndex > -1 ==>
        a.equippedWeaponIndex < |a.weapons| &&
        var weapon := a.weapons[a.equippedWeaponIndex];
        (fired <==> weapon.pending > 0 && old(m.GetActorByUID(weapon.ownerUID)).Some?) &&
        (weapon.pending == 0 ==> m.actors == old(m.actors)) &&
        (weapon.pending > 0 && !fired ==>
          m.actors == old(m.actors)[i := Some(WithWeapon(a, MainHand, a.equippedWeaponIndex,
                                                         weapon.(pending := weapon.pending - 1)))])
    ensures fired ==>
      FiredFrom(em, m.WallsNow(), m.vr, m.actorDefs, old(m.actorSalt), old(m.actors), i, MainHand, old(m.actors[i].value.equippedWeaponIndex),
                rolls, shot, launched, resolved, m.actors)
  {
    shot, launched, resolved := [], [], [];
    EvolvesReflexive(m.actors);
    var a := m.actors[i].value;
    fired := false;
    if !a.isDead && a.equippedWeaponIndex > -1 {
      fired, shot, launched, resolved := Fire(m, em, i, MainHand, a.equippedWeaponIndex, rolls);
    }
  }
}
