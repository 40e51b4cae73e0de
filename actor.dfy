/**
 * Actor: the state of one actor and the member functions of Actor that
 * change only that actor, each as a function from the actor before to the
 * actor after. Member functions that reach other actors or the map
 * (collisions, attacks, lifetime expiry) are modelled with the map.
 */
module Actors {

  import opened Wrappers
  import opened ActorUIDs
  import opened Geometry
  import opened WeaponDefinitions
  import opened ActorDefinitions
  import opened Weapons

  /** A controller: the single Player, or an AI controller by its position in the map's AI list. */
  datatype CtlRef = PlayerCtl | AICtl(index: nat)
  {
    /** Controller::IsPlayer */
    predicate IsPlayer() { PlayerCtl? }
  }

  /** SpawnInfo: the definition name, position and orientation of an actor to spawn. */
  datatype SpawnInfo = SpawnInfo(actor: string, position: Vec3, orientation: EulerAngles)

  /**
   * A Stopwatch as the frame sees it: whether it was started, whether its
   * duration has elapsed, and its elapsed fraction. The game clock advances
   * it between frames (not modelled); a timer started during a frame has
   * not elapsed in that frame.
   */
  datatype Timer = Timer(started: bool, elapsed: bool, elapsedFraction: real)

  const STOPPED: Timer := Timer(false, false, 0.0)
  const JUST_STARTED: Timer := Timer(true, false, 0.0)

  /**
   * The fields of Actor the simulation reads or writes. `lifetime` is the
   * corpse-lifetime Stopwatch that Die starts; `controller` and
   * `aiController` are the two controller pointers, None for null.
   */
  datatype Actor = Actor(
    uid: ActorUID,
    definition: ActorDefinition,
    position: Vec3,
    pivot: Vec3,
    orientation: EulerAngles,
    velocity: Vec3,
    acceleration: Vec3,
    weapons: seq<Weapon>,
    leftWeapons: seq<Weapon>,
    rightWeapons: seq<Weapon>,
    equippedWeaponIndex: int,
    ownerUID: ActorUID,
    physicsRadius: real,
    physicsHeight: real,
    isStatic: bool,
    isDead: bool,
    isDestroyed: bool,
    health: real,
    lifetime: Timer,
    controller: Option<CtlRef>,
    aiController: Option<CtlRef>,
    isGrounded: bool)

  /** The equipped index is -1 (none) or a position in the weapon list. */
  predicate WeaponIndexOk(a: Actor)
  {
    -1 <= a.equippedWeaponIndex < |a.weapons|
  }

  /** A controller reference names the Player or an AI controller that exists. */
  predicate ControllerOk(c: Option<CtlRef>, aiCount: nat)
  {
    c.Some? && c.value.AICtl? ==> c.value.index < aiCount
  }

  /** The per-actor invariant the map keeps. */
  predicate WellFormed(a: Actor, aiCount: nat)
  {
    WeaponIndexOk(a) &&
    ControllerOk(a.controller, aiCount) &&
    ControllerOk(a.aiController, aiCount) &&
    (a.aiController.Some? ==> a.aiController.value.AICtl?)
  }

  /** `after` has the weapons, the equipped index and the controllers of `before`. */
  predicate SameShape(before: Actor, after: Actor)
  {
    after.weapons == before.weapons && after.leftWeapons == before.leftWeapons &&
    after.rightWeapons == before.rightWeapons && after.equippedWeaponIndex == before.equippedWeaponIndex &&
    after.controller == before.controller && after.aiController == before.aiController
  }

  /**
   * `after` is a later state of the actor `before` within a frame: same
   * handle and definition, death and destruction never undone, and no refire
   * period gained nor corpse lifetime run out (only the clock does that,
   * between frames).
   */
  predicate Persists(before: Actor, after: Actor)
  {
    after.uid == before.uid &&
    after.definition == before.definition &&
    (before.isDead ==> after.isDead) &&
    (before.isDestroyed ==> after.isDestroyed) &&
    (after.lifetime.elapsed ==> before.lifetime.elapsed) &&
    ActorPending(after) <= ActorPending(before)
  }

  /** The elapsed, unconsumed refire periods of all the actor's weapons, hand-held ones included. */
  function ActorPending(a: Actor): nat
  {
    PendingOf(a.weapons) + PendingOf(a.leftWeapons) + PendingOf(a.rightWeapons)
  }

  /** Die (the state part): the first call marks the actor dead and starts its corpse lifetime; later calls do nothing. */
  function Die(a: Actor): (r: Actor)
    ensures r.isDead
    ensures a.isDead ==> r == a
    ensures !a.isDead ==> r.lifetime == JUST_STARTED && r == a.(isDead := true, lifetime := JUST_STARTED)
  {
    if a.isDead then a else a.(isDead := true, lifetime := JUST_STARTED)
  }

  /** Die is idempotent. */
  lemma DieIdempotent(a: Actor)
    ensures Die(Die(a)) == Die(a)
    ensures Persists(a, Die(a))
  {
  }

  /**
   * TakeDamage: a dead actor ignores damage; a live one loses exactly
   * `damage` health and dies when its health reaches zero or below.
   */
  function TakeDamage(a: Actor, damage: real): (r: Actor)
    ensures a.isDead ==> r == a
    ensures !a.isDead ==> r.health == a.health - damage
    ensures !a.isDead ==> (r.isDead <==> a.health - damage <= 0.0)
    ensures !a.isDead && a.health - damage > 0.0 ==> r == a.(health := a.health - damage)
    ensures !a.isDead && a.health - damage <= 0.0 ==> r.lifetime == JUST_STARTED
    ensures r == a.(health := r.health, isDead := r.isDead, lifetime := r.lifetime)
  {
    if a.isDead then a
    else
      var hurt := a.(health := a.health - damage);
      if hurt.health <= 0.0 then Die(hurt) else hurt
  }

  /** A lethal blow kills however much more damage follows; a dead actor's health no longer changes. */
  lemma DeathIsFinal(a: Actor, d1: real, d2: real)
    ensures TakeDamage(a, d1).isDead ==> TakeDamage(TakeDamage(a, d1), d2) == TakeDamage(a, d1)
    ensures Persists(a, TakeDamage(a, d1)) && SameShape(a, TakeDamage(a, d1))
  {
  }

  /**
   * OnPossessed: the controller becomes the actor's controller; a non-player
   * controller is also remembered. When the Player takes over with a VR
   * headset running (`vr`), the first weapon of each hand is equipped.
   */
  function OnPossessed(a: Actor, c: CtlRef, vr: bool): (r: Actor)
    ensures r.controller == Some(c)
    ensures c.IsPlayer() ==> r.aiController == a.aiController
    ensures !c.IsPlayer() ==> r.aiController == Some(c)
    ensures c.IsPlayer() && vr && |a.leftWeapons| > 0 ==>
      r.leftWeapons == a.leftWeapons[0 := OnEquipped(a.leftWeapons[0], a.uid)]
    ensures c.IsPlayer() && vr && |a.rightWeapons| > 0 ==>
      r.rightWeapons == a.rightWeapons[0 := OnEquipped(a.rightWeapons[0], a.uid)]
    ensures !(c.IsPlayer() && vr) ==> r.leftWeapons == a.leftWeapons && r.rightWeapons == a.rightWeapons
    ensures |r.leftWeapons| == |a.leftWeapons| && |r.rightWeapons| == |a.rightWeapons|
    ensures r.(controller := a.controller, aiController := a.aiController,
               leftWeapons := a.leftWeapons, rightWeapons := a.rightWeapons) == a
    ensures Persists(a, r)
  {
    var linked := a.(controller := Some(c), aiController := if c.IsPlayer() then a.aiController else Some(c));
    if c.IsPlayer() && vr then
      var left := EquipFirst(a.leftWeapons, a.uid);
      var right := EquipFirst(a.rightWeapons, a.uid);
      linked.(leftWeapons := left, rightWeapons := right)
    else linked
  }

  /** The first weapon of a hand equipped by `owner`; an empty hand is left as it is. */
  function EquipFirst(ws: seq<Weapon>, owner: ActorUID): (r: seq<Weapon>)
    ensures |ws| > 0 ==> r == ws[0 := OnEquipped(ws[0], owner)]
    ensures |ws| == 0 ==> r == ws
    ensures PendingOf(r) <= PendingOf(ws)
  {
    if |ws| == 0 then ws
    else
      PendingOfUpdate(ws, 0, OnEquipped(ws[0], owner));
      ws[0 := OnEquipped(ws[0], owner)]
  }

  /** OnUnpossessed: control falls back to the remembered AI controller if there is one, else to none. */
  function OnUnpossessed(a: Actor): (r: Actor)
    ensures a.aiController.Some? ==> r.controller == a.aiController
    ensures a.aiController.None? ==> r.controller.None?
    ensures r.aiController == a.aiController
    ensures r.(controller := a.controller) == a
  {
    a.(controller := if a.aiController.Some? then a.aiController else None)
  }

  /**
   * Possession by the Player and release hands the actor back to the AI
   * that drove it before; possession and release by an AI leaves that AI in control.
   */
  lemma UnpossessRestoresAI(a: Actor, k: nat, vr: bool)
    ensures OnUnpossessed(OnPossessed(a, PlayerCtl, vr)).controller == a.aiController
    ensures OnUnpossessed(OnPossessed(a, AICtl(k), vr)).controller == Some(AICtl(k))
  {
  }

  /**
   * EquipWeapon: an index outside the weapon list changes nothing; otherwise
   * it becomes the equipped index and that weapon is equipped by this actor.
   */
  function EquipWeapon(a: Actor, index: int): (r: Actor)
    ensures index < 0 || index >= |a.weapons| ==> r == a
    ensures 0 <= index < |a.weapons| ==>
      r.equippedWeaponIndex == index &&
      r.weapons == a.weapons[index := OnEquipped(a.weapons[index], a.uid)] &&
      r == a.(equippedWeaponIndex := index, weapons := r.weapons)
    ensures WeaponIndexOk(a) ==> WeaponIndexOk(r)
    ensures Persists(a, r)
  {
    if index < 0 || index >= |a.weapons| then a
    else
      PendingOfUpdate(a.weapons, index, OnEquipped(a.weapons[index], a.uid));
      a.(equippedWeaponIndex := index, weapons := a.weapons[index := OnEquipped(a.weapons[index], a.uid)])
  }

  /** EquipNextWeapon */
  function EquipNextWeapon(a: Actor): (r: Actor)
    ensures WeaponIndexOk(a) ==> WeaponIndexOk(r)
    ensures Persists(a, r)
  {
    EquipWeapon(a, a.equippedWeaponIndex + 1)
  }

  /** EquipPreviousWeapon */
  function EquipPreviousWeapon(a: Actor): (r: Actor)
    ensures WeaponIndexOk(a) ==> WeaponIndexOk(r)
    ensures Persists(a, r)
  {
    EquipWeapon(a, a.equippedWeaponIndex - 1)
  }

  /** Cycling stops at both ends of the weapon list: it never wraps around. */
  lemma WeaponCyclingDoesNotWrap(a: Actor)
    requires WeaponIndexOk(a)
    ensures a.equippedWeaponIndex == |a.weapons| - 1 ==> EquipNextWeapon(a) == a
    ensures a.equippedWeaponIndex <= 0 ==> EquipPreviousWeapon(a) == a
    ensures 0 <= a.equippedWeaponIndex < |a.weapons| - 1 ==>
      EquipNextWeapon(a).equippedWeaponIndex == a.equippedWeaponIndex + 1
    ensures 0 < a.equippedWeaponIndex ==>
      EquipPreviousWeapon(a).equippedWeaponIndex == a.equippedWeaponIndex - 1
  {
  }

  /** AddForce: accumulates into the acceleration. */
  function AddForce(a: Actor, force: Vec3): (r: Actor)
    ensures r.acceleration == a.acceleration.Plus(force)
    ensures r.(acceleration := a.acceleration) == a
  {
    a.(acceleration := a.acceleration.Plus(force))
  }

  /** AddImpulse: adds straight to the velocity. */
  function AddImpulse(a: Actor, impulse: Vec3): (r: Actor)
    ensures r.velocity == a.velocity.Plus(impulse)
    ensures r.(velocity := a.velocity) == a
  {
    a.(velocity := a.velocity.Plus(impulse))
  }

  /** MoveInDirection: a force of speed times drag, so that drag balances it at that speed. */
  function MoveInDirection(a: Actor, direction: Vec3, speed: real): (r: Actor)
    ensures r.acceleration == a.acceleration.Plus(direction.Times(speed * a.definition.drag))
    ensures r.(acceleration := a.acceleration) == a
  {
    AddForce(a, direction.Times(speed * a.definition.drag))
  }

  /** The largest turn of a frame: the turn rate, in degrees per second, times the frame's duration. */
  function MaxTurn(maxTurnRate: real, deltaSeconds: real): real
  {
    maxTurnRate * deltaSeconds
  }

  /** TurnInDirection: the yaw turns toward the goal by at most maxTurnRate per second of the frame. */
  function TurnInDirection(em: EngineMath, a: Actor, goalYaw: real, maxTurnRate: real, deltaSeconds: real): (r: Actor)
    ensures r.orientation.yaw == em.turnedToward(a.orientation.yaw, goalYaw, MaxTurn(maxTurnRate, deltaSeconds))
    ensures r.(orientation := a.orientation) == a
    ensures r.orientation.(yaw := a.orientation.yaw) == a.orientation
    ensures TurnsWithin(em) && MaxTurn(maxTurnRate, deltaSeconds) >= 0.0 ==>
      r.orientation.yaw == goalYaw ||
      (a.orientation.yaw - MaxTurn(maxTurnRate, deltaSeconds) <= r.orientation.yaw <= a.orientation.yaw + MaxTurn(maxTurnRate, deltaSeconds))
  {
    a.(orientation := a.orientation.(yaw := em.turnedToward(a.orientation.yaw, goalYaw, MaxTurn(maxTurnRate, deltaSeconds))))
  }

  /**
   * UpdatePhysics: drag and gravity forces, one explicit Euler step, the
   * acceleration cleared, and grounded once at or below the floor.
   */
  function UpdatePhysics(a: Actor, deltaSeconds: real): (r: Actor)
    ensures r.acceleration == ZERO3
    ensures r.position.z <= 0.0 ==> r.isGrounded
    ensures r.position.z > 0.0 ==> r.isGrounded == a.isGrounded
    ensures r.(position := a.position, velocity := a.velocity, acceleration := a.acceleration,
               isGrounded := a.isGrounded) == a
  {
    var dragged := AddForce(a, a.velocity.Times(-a.definition.drag));
    var pulled := AddForce(dragged, GROUNDWARD.Times(GRAVITY * a.definition.gravityScale));
    var velocity := pulled.velocity.Plus(pulled.acceleration.Times(deltaSeconds));
    var position := pulled.position.Plus(velocity.Times(deltaSeconds));
    pulled.(velocity := velocity, position := position, acceleration := ZERO3,
            isGrounded := if position.z <= 0.0 then true else pulled.isGrounded)
  }

  /** GRAVITY */
  const GRAVITY: real := 100.0

  /** The pitch limits of Update: [-85, 45] on the ground, [-85, 85] in the air. */
  function ClampPitch(a: Actor): (r: Actor)
    ensures -85.0 <= r.orientation.pitch <= (if a.isGrounded then 45.0 else 85.0)
    ensures r.(orientation := a.orientation) == a
    ensures r.orientation.(pitch := a.orientation.pitch) == a.orientation
  {
    var hi := if a.isGrounded then 45.0 else 85.0;
    a.(orientation := a.orientation.(pitch := Clamp(a.orientation.pitch, -85.0, hi)))
  }

  /**
   * GetEyePosition: above the pivot by eye height less weapon height, nudged
   * forward; a corpse's eye sinks toward its position as its lifetime
   * elapses.
   */
  function EyePosition(em: EngineMath, a: Actor): Vec3
  {
    var eye := a.pivot.Plus(em.upOf(a.orientation).Times(a.definition.eyeHeight - a.definition.weaponHeight))
                      .Plus(em.forwardOf(a.orientation).Times(0.01));
    if a.isDead then Lerp(eye, a.position, a.lifetime.elapsedFraction) else eye
  }

  /** The actor's upright collision cylinder (Map::CollideActors builds it along SKYWARD). */
  function UprightCylinder(a: Actor): Cylinder
  {
    Cylinder(a.position, a.position.Plus(SKYWARD.Times(a.physicsHeight)), a.physicsRadius)
  }

  /**
   * Actor(map, spawnInfo, uid): the definition looked up by name, health and
   * size from it, dead at once if it dies on spawn, one weapon per defined
   * weapon in each of the three lists, and the first weapon equipped.
   * Both controller pointers start null.
   */
  function NewActor(defs: map<string, ActorDefinition>, info: SpawnInfo, uid: ActorUID): (a: Actor)
    ensures a.uid == uid
    ensures a.definition == LookupActorDefinition(defs, info.actor)
    ensures a.position == info.position && a.orientation == info.orientation
    ensures a.health == a.definition.health
    ensures a.physicsRadius == a.definition.physicsRadius && a.physicsHeight == a.definition.physicsHeight
    ensures a.isDead == a.definition.dieOnSpawn && !a.isDestroyed && !a.lifetime.elapsed
    ensures |a.weapons| == |a.leftWeapons| == |a.rightWeapons| == |a.definition.weapons|
    ensures forall i :: 0 <= i < |a.weapons| ==> a.weapons[i].definition == a.definition.weapons[i]
    ensures a.equippedWeaponIndex == (if |a.weapons| > 0 then 0 else -1)
    ensures |a.weapons| > 0 ==> a.weapons[0].ownerUID == uid && a.weapons[0].onMap
    ensures forall i :: 1 <= i < |a.weapons| ==> a.weapons[i].ownerUID == ActorUID.INVALID
    ensures AllIdle(a.weapons) && AllIdle(a.leftWeapons) && AllIdle(a.rightWeapons)
    ensures a.controller.None? && a.aiController.None?
    ensures a.ownerUID == ActorUID.INVALID
    ensures WellFormed(a, 0)
  {
    var d := LookupActorDefinition(defs, info.actor);
    var born := Actor(uid, d, info.position, info.position.Plus(SKYWARD.Times(d.weaponHeight)),
                      info.orientation, ZERO3, ZERO3, [], [], [], -1, ActorUID.INVALID,
                      d.physicsRadius, d.physicsHeight, false, false, false, d.health, STOPPED,
                      None, None, false);
    var settled := if d.dieOnSpawn then Die(born) else born;
    var armed := settled.(
      weapons := seq(|d.weapons|, i requires 0 <= i < |d.weapons| => NewWeapon(d.weapons[i])),
      leftWeapons := seq(|d.weapons|, i requires 0 <= i < |d.weapons| => NewWeapon(d.weapons[i])),
      rightWeapons := seq(|d.weapons|, i requires 0 <= i < |d.weapons| => NewWeapon(d.weapons[i])));
    if |armed.weapons| > 0 then EquipWeapon(armed, 0) else armed
  }
}
