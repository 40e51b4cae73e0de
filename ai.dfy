/**
 * AI::Update, the per-frame decision of a non-player controller. The AI
 * keeps a target handle. While it holds none that resolves, it takes the
 * closest enemy its actor sees. Once it has a live target it attacks when
 * the target is within the equipped weapon's range, in line of sight and
 * within 15 degrees of the actor's heading; otherwise it walks or runs
 * ahead. Either way it turns toward the target.
 */
module AIs {

  import opened Wrappers
  import opened ActorUIDs
  import opened Geometry
  import opened Weapons
  import opened Actors
  import opened ActorSlots
  import opened Maps
  import opened Firing

  function Abs(x: real): real
  {
    if x < 0.0 then -x else x
  }

  /** Where AI::Update measures range and angle from: the eye pushed forward by the physics radius. */
  function FirePosition(em: EngineMath, a: Actor): Vec3
  {
    EyePosition(em, a).Plus(em.forwardOf(a.orientation).Times(a.physicsRadius))
  }

  /** The horizontal displacement from the actor to its target. */
  function ToTarget(self: Actor, target: Actor): Vec2
  {
    Minus2(target.position.XY(), self.position.XY())
  }

  /** The horizontal displacement from the fire position to the target. */
  function FireToTarget(em: EngineMath, self: Actor, target: Actor): Vec2
  {
    Minus2(target.position.XY(), FirePosition(em, self).XY())
  }

  /** The chase speed: walking within 2 units of the target, running farther away. */
  function ChaseSpeed(self: Actor, target: Actor): (speed: real)
    ensures DistanceSquared2D(target.position.XY(), self.position.XY()) < 4.0 ==> speed == self.definition.walkSpeed
    ensures DistanceSquared2D(target.position.XY(), self.position.XY()) >= 4.0 ==> speed == self.definition.runSpeed
  {
    if LengthSquared2D(ToTarget(self, target)) < 4.0 then self.definition.walkSpeed else self.definition.runSpeed
  }

  /**
   * The range AI::Update reads, as written: the range of the weapon at the
   * equipped index, with no check that a weapon is equipped. None stands
   * for that read falling outside the weapon list.
   */
  function EquippedRangeAsWritten(a: Actor): (r: Option<real>)
    ensures r.Some? <==> 0 <= a.equippedWeaponIndex < |a.weapons|
    ensures r.Some? ==> r.value == GetRange(a.weapons[a.equippedWeaponIndex].definition)
  {
    if 0 <= a.equippedWeaponIndex < |a.weapons| then Some(GetRange(a.weapons[a.equippedWeaponIndex].definition))
    else None
  }

  /**
   * An AI actor without weapons (equipped index -1, which Attack treats as
   * "no weapon") makes the as-written range test read outside its weapon
   * list whenever it engages a target.
   */
  lemma UnarmedRangeReadIsOutOfBounds(a: Actor)
    requires WeaponIndexOk(a) && |a.weapons| == 0
    ensures a.equippedWeaponIndex == -1 && EquippedRangeAsWritten(a).None?
  {
  }

  /**
   * The range gate as intended: an actor with no weapon equipped has nothing
   * to fire and is never within range; otherwise the target lies strictly
   * inside the equipped weapon's range, measured horizontally from the fire
   * position.
   */
  predicate WithinFiringRange(em: EngineMath, self: Actor, target: Actor)
  {
    0 <= self.equippedWeaponIndex < |self.weapons| &&
    var range := GetRange(self.weapons[self.equippedWeaponIndex].definition);
    LengthSquared2D(FireToTarget(em, self, target)) < range * range
  }

  /**
   * The corrected gate agrees with the as-written one wherever that one is
   * defined, and it only ever lets an armed actor through.
   */
  lemma RangeGatesAgree(em: EngineMath, self: Actor, target: Actor)
    ensures EquippedRangeAsWritten(self).Some? ==>
      (WithinFiringRange(em, self, target) <==>
       LengthSquared2D(FireToTarget(em, self, target)) <
         EquippedRangeAsWritten(self).value * EquippedRangeAsWritten(self).value)
    ensures WithinFiringRange(em, self, target) ==> EquippedRangeAsWritten(self).Some?
  {
  }

  /** The angle gate: the target lies within 15 degrees either side of the actor's heading. */
  predicate WithinFiringAngle(em: EngineMath, self: Actor, target: Actor)
  {
    Abs(em.angleBetween(FireToTarget(em, self, target), em.forwardOf(self.orientation).XY())) < 15.0
  }

  /** The AI attacks when the target is in range, in line of sight and within the firing angle. */
  predicate ShouldAttack(m: Map, em: EngineMath, self: Actor, target: Actor)
    reads m
  {
    WithinFiringRange(em, self, target) && m.HasLineOfSight(em, self, target) && WithinFiringAngle(em, self, target)
  }

  /** An AI actor that decides to attack has a weapon equipped, so Actor::Attack fires it unless it is dead. */
  lemma AttackerIsArmed(m: Map, em: EngineMath, self: Actor, target: Actor)
    requires ShouldAttack(m, em, self, target)
    ensures self.equippedWeaponIndex > -1 && EquippedRangeAsWritten(self).Some?
  {
  }

  /** The chase step: a push ahead at the chase speed. */
  function Advance(em: EngineMath, self: Actor, target: Actor): (r: Actor)
    ensures r.acceleration == self.acceleration.Plus(em.forwardOf(self.orientation).Times(ChaseSpeed(self, target) * self.definition.drag))
    ensures r.(acceleration := self.acceleration) == self
  {
    MoveInDirection(self, em.forwardOf(self.orientation), ChaseSpeed(self, target))
  }

  /** The turn toward the target, at the actor's turn speed for the frame's duration. */
  function Face(em: EngineMath, self: Actor, target: Actor, deltaSeconds: real): (r: Actor)
    ensures r.orientation.yaw ==
      em.turnedToward(self.orientation.yaw, em.orientationDegrees(Minus2(target.position.XY(), self.position.XY())),
                      MaxTurn(self.definition.turnSpeed, deltaSeconds))
    ensures r.(orientation := self.orientation) == self
  {
    var goal := em.orientationDegrees(Minus2(target.position.XY(), self.position.XY()));
    TurnInDirection(em, self, goal, self.definition.turnSpeed, deltaSeconds)
  }

  /** The AI holds a target: its handle is valid and resolves to an actor. */
  predicate TargetHeld(m: Map, c: nat)
    reads m
    requires c < |m.ais|
  {
    m.ais[c].targetUID != ActorUID.INVALID && m.GetActorByUID(m.ais[c].targetUID).Some?
  }

  /** The AI's target handle is valid and resolves to a live actor. */
  predicate TargetAlive(m: Map, c: nat)
    reads m
    requires c < |m.ais|
  {
    TargetHeld(m, c) && IsActorAlive(m.actors[m.GetActorByUID(m.ais[c].targetUID).value])
  }

  /**
   * The targeting step of AI::Update: an AI holding a target keeps it;
   * otherwise it takes the closest enemy its actor sees, if any, and keeps
   * its old handle when there is none.
   */
  method AcquireTarget(m: Map, em: EngineMath, c: nat, self: nat) returns (found: Option<nat>)
    requires m.Valid() && c < |m.ais| && self < |m.actors| && m.actors[self].Some?
    modifies m`ais
    ensures old(TargetHeld(m, c)) ==> found.None?
    ensures found.None? ==> m.ais == old(m.ais)
    ensures found.Some? ==>
      found.value < |m.actors| && m.VisibleEnemy(em, m.actors[self].value, found.value) &&
      m.ais == old(m.ais)[c := old(m.ais[c]).(targetUID := m.actors[found.value].value.uid)]
    ensures found.Some? ==> forall j :: 0 <= j < |m.actors| && m.VisibleEnemy(em, m.actors[self].value, j) ==>
      m.SeekDistance(em, m.actors[self].value, found.value) <= m.SeekDistance(em, m.actors[self].value, j)
    ensures !old(TargetHeld(m, c)) && found.None? ==>
      forall j :: 0 <= j < |m.actors| && m.VisibleEnemy(em, m.actors[self].value, j) ==>
        m.SeekDistance(em, m.actors[self].value, j) >= FLT_MAX
    ensures m.Valid()
  {
    found := None;
    if TargetHeld(m, c) {
      return;
    }
    found := m.GetClosestVisibleEnemy(em, m.actors[self].value);
    if found.Some? {
      m.ais := m.ais[c := m.ais[c].(targetUID := m.actors[found.value].value.uid)];
    }
  }

  /**
   * The engagement step of AI::Update against a live target: attack when
   * ShouldAttack holds, else push ahead at the chase speed; then turn
   * toward the target.
   */
  method Engage(m: Map, em: EngineMath, self: nat, target: nat, deltaSeconds: real, rolls: FireRolls)
    returns (attacking: bool)
    requires m.Valid() && self < |m.actors| && m.actors[self].Some? && target < |m.actors| && m.actors[target].Some?
    modifies m`actors, m`actorSalt, m`ais, m`player
    ensures attacking == old(ShouldAttack(m, em, m.actors[self].value, m.actors[target].value))
    ensures !attacking ==>
      var a := old(m.actors[self].value);
      var t := old(m.actors[target].value);
      m.actors == old(m.actors)[self := Some(Face(em, Advance(em, a, t), t, deltaSeconds))] &&
      m.actorSalt == old(m.actorSalt) && m.ais == old(m.ais) && m.player == old(m.player)
    ensures |m.actors| > old(|m.actors|) ==> TotalPending(m.actors) < old(TotalPending(m.actors))
    ensures m.Valid() && Evolves(old(m.actors), m.actors) && SlotsKept(old(m.actors), m.actors)
  {
    EvolvesReflexive(m.actors);
    var a := m.actors[self].value;
    var t := m.actors[target].value;
    attacking := ShouldAttack(m, em, a, t);
    if attacking {
      AttackAndTurn(m, em, self, ToTarget(a, t), deltaSeconds, rolls);
    } else {
      var moved := Face(em, Advance(em, a, t), t, deltaSeconds);
      UpdateShapesKept(m.actors, self, moved);
      ShapesKeptSlotsKept(m.actors, m.actors[self := Some(moved)]);
      m.SetActor(self, moved);
    }
  }

  /** The attacking branch of Engage: attack with the current weapon, then turn toward `toTarget`. */
  method AttackAndTurn(m: Map, em: EngineMath, self: nat, toTarget: Vec2, deltaSeconds: real, rolls: FireRolls)
    requires m.Valid() && self < |m.actors| && m.actors[self].Some?
    modifies m`actors, m`actorSalt, m`ais, m`player
    ensures |m.actors| > old(|m.actors|) ==> TotalPending(m.actors) < old(TotalPending(m.actors))
    ensures m.Valid() && Evolves(old(m.actors), m.actors) && SlotsKept(old(m.actors), m.actors)
  {
    var _, _, _, _ := Attack(m, em, self, rolls);
    ghost var attacked := m.actors;
    var b := m.actors[self].value;
    var turned := TurnInDirection(em, b, em.orientationDegrees(toTarget), b.definition.turnSpeed, deltaSeconds);
    UpdateShapesKept(attacked, self, turned);
    ShapesKeptSlotsKept(attacked, attacked[self := Some(turned)]);
    m.SetActor(self, turned);
    EvolvesTransitive(old(m.actors), attacked, m.actors);
    EvolvesPending(attacked, m.actors);
    SlotsKeptTransitive(old(m.actors), attacked, m.actors);
  }

  /**
   * The rest of AI::Update once the AI's actor resolves to slot `self`: it
   * engages only when its target handle is valid and resolves to a live actor.
   */
  method Pursue(m: Map, em: EngineMath, c: nat, self: nat, deltaSeconds: real, rolls: FireRolls) returns (engaged: bool)
    requires m.Valid() && c < |m.ais| && self < |m.actors| && m.actors[self].Some?
    modifies m`actors, m`actorSalt, m`ais, m`player
    ensures engaged <==> old(TargetAlive(m, c))
    ensures !engaged ==>
      m.actors == old(m.actors) && m.ais == old(m.ais) && m.actorSalt == old(m.actorSalt) && m.player == old(m.player)
    ensures |m.actors| > old(|m.actors|) ==> TotalPending(m.actors) < old(TotalPending(m.actors))
    ensures m.Valid() && Evolves(old(m.actors), m.actors) && SlotsKept(old(m.actors), m.actors)
  {
    EvolvesReflexive(m.actors);
    engaged := false;
    if m.ais[c].targetUID == ActorUID.INVALID {
      return;
    }
    var target := m.GetActorByUID(m.ais[c].targetUID);
    if target.None? || !IsActorAlive(m.actors[target.value]) {
      return;
    }
    engaged := true;
    var _ := Engage(m, em, self, target.value, deltaSeconds, rolls);
  }

  /**
   * AI::Update for AI controller c. Nothing happens unless its actor handle
   * resolves. The AI then acquires a target if it holds none. It engages
   * only a target whose handle resolves to a live actor.
   */
  method UpdateAI(m: Map, em: EngineMath, c: nat, deltaSeconds: real, rolls: FireRolls) returns (engaged: bool)
    requires m.Valid() && c < |m.ais|
    modifies m`actors, m`actorSalt, m`ais, m`player
    ensures old(m.GetActorByUID(m.ais[c].actorUID)).None? ==>
      !engaged && m.actors == old(m.actors) && m.ais == old(m.ais) && m.actorSalt == old(m.actorSalt) &&
      m.player == old(m.player)
    ensures !engaged ==> m.actors == old(m.actors) && m.actorSalt == old(m.actorSalt) && m.player == old(m.player)
    ensures engaged ==> old(m.GetActorByUID(m.ais[c].actorUID)).Some?
    ensures |m.actors| > old(|m.actors|) ==> TotalPending(m.actors) < old(TotalPending(m.actors))
    ensures m.Valid() && Evolves(old(m.actors), m.actors) && SlotsKept(old(m.actors), m.actors)
  {
    EvolvesReflexive(m.actors);
    engaged := false;
    var possessed := m.GetActorByUID(m.ais[c].actorUID);
    if possessed.None? {
      return;
    }
    var _ := AcquireTarget(m, em, c, possessed.value);
    engaged := Pursue(m, em, c, possessed.value, deltaSeconds, rolls);
  }
}
