/**
 * Collisions: actor against actor (Map::CollideActors and Actor::OnCollide),
 * actor against the tile grid, the floor and the ceiling, and, on the gold
 * map, actor against the static cliffs, trees and rocks. The pushes
 * themselves are engine geometry (EngineMath); what is modelled is which
 * pairs are tested, which are excluded, and what each collision does to the
 * actors' state.
 */
module Collisions {

  import opened Wrappers
  import opened ActorUIDs
  import opened Geometry
  import opened ActorDefinitions
  import opened Tiles
  import opened Actors
  import opened Controllers
  import opened ActorSlots
  import opened Maps
  import opened ControllerEvents

  // ---------------------------------------------------------------- actor pairs

  /**
   * The three early returns of the pair routine: one owns the other, both
   * have the same valid owner, or both have valid owners at all.
   */
  predicate CollisionExcluded(a: Actor, b: Actor)
  {
    IsOwner(a, b) || IsOwner(b, a) ||
    (a.ownerUID == b.ownerUID && a.ownerUID != ActorUID.INVALID) ||
    (a.ownerUID != ActorUID.INVALID && b.ownerUID != ActorUID.INVALID)
  }

  /**
   * The shared-owner rule adds nothing to the both-owned rule: two owned
   * actors never collide, whoever owns them, and an owned actor meets an
   * unowned one only when the unowned one is not its owner.
   */
  lemma ExclusionIsOwnershipOrBothOwned(a: Actor, b: Actor)
    ensures CollisionExcluded(a, b) <==>
      IsOwner(a, b) || IsOwner(b, a) ||
      (a.ownerUID != ActorUID.INVALID && b.ownerUID != ActorUID.INVALID)
    ensures a.ownerUID != ActorUID.INVALID && b.ownerUID != ActorUID.INVALID ==> CollisionExcluded(a, b)
    ensures a.ownerUID == ActorUID.INVALID && b.ownerUID == ActorUID.INVALID ==> !CollisionExcluded(a, b)
    ensures a.ownerUID == ActorUID.INVALID && b.ownerUID != ActorUID.INVALID ==>
      (CollisionExcluded(a, b) <==> b.ownerUID == a.uid)
  {
  }

  /** Exclusion does not depend on the order of the pair. */
  lemma ExclusionIsSymmetric(a: Actor, b: Actor)
    ensures CollisionExcluded(a, b) <==> CollisionExcluded(b, a)
  {
  }

  /**
   * The XY centres of `a` and `b` after OnCollide's push. When both collide
   * with actors they push each other apart; otherwise, when `a` does not,
   * `b` is pushed off `a` (the source passes `b`'s radius for both discs);
   * otherwise `a` is pushed off `b`.
   */
  function CollisionPush(em: EngineMath, a: Actor, b: Actor): (Vec2, Vec2)
  {
    var aXY := a.position.XY();
    var bXY := b.position.XY();
    if a.definition.collidesWithActors && b.definition.collidesWithActors then
      em.pushDiscsOutOfEachOther(aXY, a.physicsRadius, bXY, b.physicsRadius)
    else if !a.definition.collidesWithActors then
      (aXY, em.pushDiscOutOfFixedDisc(bXY, b.physicsRadius, aXY, b.physicsRadius))
    else
      (em.pushDiscOutOfFixedDisc(aXY, a.physicsRadius, bXY, b.physicsRadius), bXY)
  }

  /** Moves the actor to a new XY centre at the same height. */
  function MovedTo(a: Actor, xy: Vec2): (r: Actor)
    ensures r.position == Vec3(xy.x, xy.y, a.position.z)
    ensures SameShape(a, r) && Persists(a, r)
  {
    a.(position := Vec3(xy.x, xy.y, a.position.z))
  }

  /** OnCollide(nullptr): only the die-on-collide rule applies. */
  function OnCollideWithNothing(a: Actor): (r: Actor)
    ensures r.isDead <==> a.isDead || a.definition.dieOnCollide
    ensures !a.definition.dieOnCollide ==> r == a
    ensures SameShape(a, r) && r.position == a.position
    ensures Persists(a, r)
  {
    DieIdempotent(a);
    if a.definition.dieOnCollide then Die(a) else a
  }

  /** The other actor after OnCollide's push and, when the collider deals damage, the rolled damage. */
  function PushedAndDamaged(collider: Actor, struck: Actor, pushedTo: Vec2, damageRoll: real): (r: Actor)
    ensures Persists(struck, r)
    ensures r.position == Vec3(pushedTo.x, pushedTo.y, struck.position.z)
    ensures collider.definition.damageOnCollide == ZERO_RANGE ==> r == MovedTo(struck, pushedTo)
    ensures collider.definition.damageOnCollide != ZERO_RANGE ==> r == TakeDamage(MovedTo(struck, pushedTo), damageRoll)
    ensures SameShape(struck, r)
  {
    var moved := MovedTo(struck, pushedTo);
    DeathIsFinal(moved, damageRoll, 0.0);
    if collider.definition.damageOnCollide != ZERO_RANGE then TakeDamage(moved, damageRoll) else moved
  }

  /** The impulse OnCollide gives the other actor: the collider's horizontal forward direction, scaled. */
  function CollisionImpulse(em: EngineMath, collider: Actor): Vec3
  {
    ToVec3(em.forwardOf(collider.orientation).XY()).Times(collider.definition.impulseOnCollide)
  }

  /** What OnCollide does to the other actor: pushed, damaged if the collider deals damage, then shoved forward. */
  function StruckActor(em: EngineMath, collider: Actor, struck: Actor, pushedTo: Vec2, damageRoll: real): (r: Actor)
    ensures Persists(struck, r)
    ensures collider.definition.damageOnCollide == ZERO_RANGE ==> r.health == struck.health && r.isDead == struck.isDead
    ensures collider.definition.damageOnCollide != ZERO_RANGE && !struck.isDead ==>
      r.health == struck.health - damageRoll && (r.isDead <==> struck.health - damageRoll <= 0.0)
    ensures r.velocity == struck.velocity.Plus(CollisionImpulse(em, collider))
    ensures r.position == Vec3(pushedTo.x, pushedTo.y, struck.position.z)
    ensures SameShape(struck, r)
  {
    AddImpulse(PushedAndDamaged(collider, struck, pushedTo, damageRoll), CollisionImpulse(em, collider))
  }

  /** The actors other than slot i and slot j are as they were. */
  predicate OthersUnchanged(before: seq<Option<Actor>>, after: seq<Option<Actor>>, i: nat, j: nat)
  {
    |after| == |before| && forall k :: 0 <= k < |before| && k != i && k != j ==> after[k] == before[k]
  }

  /** No slot is emptied: the step only changes actors in place. */
  predicate KeepsSlots(before: seq<Option<Actor>>, after: seq<Option<Actor>>)
  {
    |after| == |before| && forall k :: 0 <= k < |before| && before[k].Some? ==> after[k].Some?
  }

  /** Replacing two occupied slots by later states of their actors is a step of the frame that keeps every slot. */
  lemma UpdateTwiceEvolves(s: seq<Option<Actor>>, i: nat, x: Actor, j: nat, y: Actor)
    requires i < |s| && j < |s| && i != j && s[i].Some? && s[j].Some?
    requires Persists(s[i].value, x) && Persists(s[j].value, y)
    ensures Evolves(s, s[i := Some(x)][j := Some(y)]) && KeepsSlots(s, s[i := Some(x)][j := Some(y)])
    ensures OthersUnchanged(s, s[i := Some(x)][j := Some(y)], i, j)
  {
    UpdateEvolves(s, i, x);
    UpdateEvolves(s[i := Some(x)], j, y);
    EvolvesTransitive(s, s[i := Some(x)], s[i := Some(x)][j := Some(y)]);
  }

  /**
   * The notification half of OnCollide's damage step: when the collider's
   * owner resolves and the struck actor in slot o has a controller, that
   * controller's DamagedBy runs with the owner as attacker.
   */
  method NotifyDamaged(m: Map, ownerUID: ActorUID, o: nat)
    requires m.Valid() && o < |m.actors| && m.actors[o].Some?
    modifies m`actors, m`player, m`ais
    ensures m.actors == old(m.actors) && |m.ais| == old(|m.ais|)
    ensures DamageNotification(true, m.GetActorByUID(ownerUID).Some?, m.actors[o].value.controller).NoNotify? ==>
      m.player == old(m.player) && m.ais == old(m.ais)
    ensures m.Valid()
    ensures var owner := m.GetActorByUID(ownerUID);
      DamageNotification(true, owner.Some?, m.actors[o].value.controller).NotifyCtl? ==>
        Listeners(m.ais, m.player) ==
          Notified(m.actors, Listeners(old(m.ais), old(m.player)), m.actors[o].value.controller, owner.value)
  {
    var owner := m.GetActorByUID(ownerUID);
    var notify := DamageNotification(true, owner.Some?, m.actors[o].value.controller);
    if notify.NotifyCtl? {
      DamagedBy(m, notify.ctl, owner);
    }
  }

  /**
   * The part of Actor::OnCollide(other) for a live other: both are pushed
   * apart in XY; if the actor deals collision damage, the other takes the
   * rolled damage and, when the actor's owner resolves and the other has a
   * controller, that controller hears of it; then the other is shoved along
   * the actor's forward direction.
   */
  method CollideWithLiveActor(m: Map, em: EngineMath, self: nat, o: nat, damageRoll: real)
    requires m.Valid() && self < |m.actors| && o < |m.actors| && self != o
    requires m.actors[self].Some? && m.actors[o].Some? && !m.actors[o].value.isDead
    modifies m`actors, m`player, m`ais
    ensures |m.actors| == old(|m.actors|)
    ensures var push := CollisionPush(em, old(m.actors[self].value), old(m.actors[o].value));
      m.actors[self] == Some(MovedTo(old(m.actors[self].value), push.0)) &&
      m.actors[o] == Some(StruckActor(em, old(m.actors[self].value), old(m.actors[o].value), push.1, damageRoll))
    ensures OthersUnchanged(old(m.actors), m.actors, self, o)
    ensures |m.ais| == old(|m.ais|)
    ensures m.Valid() && Evolves(old(m.actors), m.actors) && KeepsSlots(old(m.actors), m.actors)
    ensures var a, b := old(m.actors[self].value), old(m.actors[o].value);
      var push := CollisionPush(em, a, b);
      var hit := old(m.actors)[self := Some(MovedTo(a, push.0))][o := Some(PushedAndDamaged(a, b, push.1, damageRoll))];
      var owner := Resolve(hit, a.ownerUID);
      Listeners(m.ais, m.player) ==
        if a.definition.damageOnCollide != ZERO_RANGE && owner.Some? && b.controller.Some?
        then Notified(hit, Listeners(old(m.ais), old(m.player)), b.controller, owner.value)
        else Listeners(old(m.ais), old(m.player))
  {
    var a := m.actors[self].value;
    var b := m.actors[o].value;
    var push := CollisionPush(em, a, b);
    var damaged := PushedAndDamaged(a, b, push.1, damageRoll);
    PushApartAndDamage(m, em, self, o, damageRoll);
    m.SetActor(o, AddImpulse(damaged, CollisionImpulse(em, a)));
    UpdateTwiceEvolves(old(m.actors), self, MovedTo(a, push.0), o, StruckActor(em, a, b, push.1, damageRoll));
  }

  /**
   * The first half of CollideWithLiveActor: both actors pushed apart, the
   * other damaged when the actor deals collision damage, and the other's
   * controller told when the actor's owner resolves.
   */
  method PushApartAndDamage(m: Map, em: EngineMath, self: nat, o: nat, damageRoll: real)
    requires m.Valid() && self < |m.actors| && o < |m.actors| && self != o
    requires m.actors[self].Some? && m.actors[o].Some?
    modifies m`actors, m`player, m`ais
    ensures var a, b := old(m.actors[self].value), old(m.actors[o].value);
      var push := CollisionPush(em, a, b);
      m.actors == old(m.actors)[self := Some(MovedTo(a, push.0))][o := Some(PushedAndDamaged(a, b, push.1, damageRoll))]
    ensures |m.ais| == old(|m.ais|) && m.Valid()
    ensures var a, b := old(m.actors[self].value), old(m.actors[o].value);
      var owner := Resolve(m.actors, a.ownerUID);
      Listeners(m.ais, m.player) ==
        if a.definition.damageOnCollide != ZERO_RANGE && owner.Some? && b.controller.Some?
        then Notified(m.actors, Listeners(old(m.ais), old(m.player)), b.controller, owner.value)
        else Listeners(old(m.ais), old(m.player))
  {
    var a := m.actors[self].value;
    var b := m.actors[o].value;
    var push := CollisionPush(em, a, b);
    m.SetActor(self, MovedTo(a, push.0));
    m.SetActor(o, PushedAndDamaged(a, b, push.1, damageRoll));
    if a.definition.damageOnCollide != ZERO_RANGE {
      NotifyDamaged(m, a.ownerUID, o);
    }
  }

  /**
   * Actor::OnCollide(other), with `other` a slot or None for null: the
   * collision with a live other above, then, in every case, an actor that
   * dies on collision dies.
   */
  method OnCollide(m: Map, em: EngineMath, self: nat, other: Option<nat>, damageRoll: real)
    requires m.Valid() && self < |m.actors| && m.actors[self].Some?
    requires other.Some? ==> other.value < |m.actors| && m.actors[other.value].Some? && other.value != self
    modifies m`actors, m`player, m`ais
    ensures other.None? || old(m.actors[other.value].value.isDead) ==>
      m.actors == old(m.actors)[self := Some(OnCollideWithNothing(old(m.actors[self].value)))] &&
      m.player == old(m.player) && m.ais == old(m.ais)
    ensures |m.actors| == old(|m.actors|)
    ensures other.Some? && !old(m.actors[other.value].value.isDead) ==>
      var push := CollisionPush(em, old(m.actors[self].value), old(m.actors[other.value].value));
      m.actors[self] == Some(OnCollideWithNothing(MovedTo(old(m.actors[self].value), push.0))) &&
      m.actors[other.value] == Some(StruckActor(em, old(m.actors[self].value), old(m.actors[other.value].value),
                                                push.1, damageRoll)) &&
      OthersUnchanged(old(m.actors), m.actors, self, other.value)
    ensures old(m.actors[self].value.definition.dieOnCollide) ==> m.actors[self].Some? && m.actors[self].value.isDead
    ensures other.Some? ==> m.actors == Collided(em, old(m.actors), self, other.value, damageRoll)
    ensures |m.ais| == old(|m.ais|)
    ensures m.Valid() && Evolves(old(m.actors), m.actors) && KeepsSlots(old(m.actors), m.actors)
  {
    EvolvesReflexive(m.actors);
    if other.Some? && !m.actors[other.value].value.isDead {
      CollideWithLiveActor(m, em, self, other.value, damageRoll);
    }
    ghost var before := m.actors;
    DieOnCollide(m, self);
    EvolvesTransitive(old(m.actors), before, m.actors);
    if other.Some? {
      assert forall k :: 0 <= k < |m.actors| ==> m.actors[k] == Collided(em, old(m.actors), self, other.value, damageRoll)[k];
    }
  }

  /** The end of Actor::OnCollide: an actor that dies on collision dies. */
  method DieOnCollide(m: Map, self: nat)
    requires m.Valid() && self < |m.actors| && m.actors[self].Some?
    modifies m`actors
    ensures m.actors == old(m.actors)[self := Some(OnCollideWithNothing(old(m.actors[self].value)))]
    ensures m.Valid() && Evolves(old(m.actors), m.actors)
  {
    if m.actors[self].value.definition.dieOnCollide {
      KillSlot(m, self);
    } else {
      EvolvesReflexive(m.actors);
    }
  }

  /**
   * Actor::OnCollide(other) on the slot array, for an other in slot `other`:
   * against a dead other only the die-on-collide rule applies; against a
   * live one both are pushed apart, the other is struck, and then the
   * die-on-collide rule applies to the collider.
   */
  function Collided(em: EngineMath, s: seq<Option<Actor>>, self: nat, other: nat, damageRoll: real): (r: seq<Option<Actor>>)
    requires self < |s| && other < |s| && self != other && s[self].Some? && s[other].Some?
    ensures |r| == |s| && r[self].Some? && r[other].Some?
    ensures forall k :: 0 <= k < |s| && k != self && k != other ==> r[k] == s[k]
    ensures s[other].value.isDead ==> r[other] == s[other]
    ensures r[self].value.isDead <==> s[self].value.isDead || s[self].value.definition.dieOnCollide
  {
    var a := s[self].value;
    var b := s[other].value;
    if b.isDead then
      s[self := Some(OnCollideWithNothing(a))]
    else
      var push := CollisionPush(em, a, b);
      s[self := Some(OnCollideWithNothing(MovedTo(a, push.0)))][other := Some(StruckActor(em, a, b, push.1, damageRoll))]
  }

  /**
   * Map::CollideActors(a, b): when the upright cylinders overlap and the pair
   * is not excluded, `a` collides with `b`, then `b` with `a`; otherwise
   * nothing happens. Each collision has its own damage roll.
   */
  method CollidePair(m: Map, em: EngineMath, i: nat, j: nat, rollA: real, rollB: real) returns (ghost collided: bool)
    requires m.Valid() && i < |m.actors| && j < |m.actors| && i != j
    requires m.actors[i].Some? && m.actors[j].Some?
    modifies m`actors, m`player, m`ais
    ensures collided <==>
      em.cylindersOverlap(UprightCylinder(old(m.actors[i].value)), UprightCylinder(old(m.actors[j].value))) &&
      !CollisionExcluded(old(m.actors[i].value), old(m.actors[j].value))
    ensures !collided ==> m.actors == old(m.actors) && m.player == old(m.player) && m.ais == old(m.ais)
    ensures collided ==> OthersUnchanged(old(m.actors), m.actors, i, j)
    ensures m.actors == PairOutcome(em, old(m.actors), i, j, rollA, rollB)
    ensures m.Valid() && Evolves(old(m.actors), m.actors) && KeepsSlots(old(m.actors), m.actors)
  {
    EvolvesReflexive(m.actors);
    var a := m.actors[i].value;
    var b := m.actors[j].value;
    collided := false;
    if !em.cylindersOverlap(UprightCylinder(a), UprightCylinder(b)) {
      return;
    }
    if IsOwner(a, b) || IsOwner(b, a) {
      return;
    }
    if a.ownerUID == b.ownerUID && a.ownerUID != ActorUID.INVALID {
      return;
    }
    if a.ownerUID != ActorUID.INVALID && b.ownerUID != ActorUID.INVALID {
      return;
    }
    collided := true;
    OnCollide(m, em, i, Some(j), rollA);
    ghost var middle := m.actors;
    OnCollide(m, em, j, Some(i), rollB);
    EvolvesTransitive(old(m.actors), middle, m.actors);
  }

  /**
   * Map::CollideActors(a, b) on the slot array: when slots i and j hold
   * overlapping actors that are not excluded, i collides with j (roll
   * rollA), then j with i (roll rollB); otherwise the slots are unchanged.
   */
  function PairOutcome(em: EngineMath, s: seq<Option<Actor>>, i: nat, j: nat, rollA: real, rollB: real): (r: seq<Option<Actor>>)
    ensures |r| == |s|
    ensures forall k :: 0 <= k < |s| && k != i && k != j ==> r[k] == s[k]
  {
    if i < |s| && j < |s| && i != j && s[i].Some? && s[j].Some? &&
       em.cylindersOverlap(UprightCylinder(s[i].value), UprightCylinder(s[j].value)) &&
       !CollisionExcluded(s[i].value, s[j].value)
    then
      Collided(em, Collided(em, s, i, j, rollA), j, i, rollB)
    else
      s
  }

  /**
   * The slots after i and before j that a row scan pairs with slot i: each
   * slot in turn, when `reached(row, b)` holds of it once the slots already
   * in the row are paired.
   */
  ghost function Scan(i: nat, j: nat, reached: (seq<nat>, nat) -> bool): seq<nat>
    decreases j
  {
    if j <= i + 1 then []
    else
      var row := Scan(i, j - 1, reached);
      if reached(row, j - 1) then row + [j - 1] else row
  }

  /** Slot b holds a live actor once the pairs of slot i with the slots of `row` are collided on s. */
  ghost function ReachedAlive(em: EngineMath, s: seq<Option<Actor>>, i: nat, rolls: (nat, nat) -> real): (seq<nat>, nat) -> bool
  {
    (row: seq<nat>, b: nat) => b < |s| && IsActorAlive(FoldPairs(em, s, RowPairs(i, row), rolls)[b])
  }

  /**
   * The slots that the inner loop of Map::CollideActors() for row i pairs
   * with slot i, among those after i and before j: each slot in turn, when
   * it holds a live actor on the slots the pairs before it left.
   */
  ghost function RowVisits(em: EngineMath, s: seq<Option<Actor>>, i: nat, j: nat, rolls: (nat, nat) -> real): seq<nat>
  {
    Scan(i, j, ReachedAlive(em, s, i, rolls))
  }

  /**
   * The outer loop of Map::CollideActors() on values, once the rows before
   * i are done: row k runs, over every slot after k, only when slot k holds
   * a live actor as the row starts.
   */
  ghost function RowsUpTo(em: EngineMath, s: seq<Option<Actor>>, i: nat, rolls: (nat, nat) -> real): (r: seq<Option<Actor>>)
    ensures |r| == |s|
    decreases i
  {
    if i == 0 then s
    else
      var done := RowsUpTo(em, s, i - 1, rolls);
      if i - 1 < |done| && IsActorAlive(done[i - 1]) then
        FoldPairs(em, done, RowPairs(i - 1, RowVisits(em, done, i - 1, |done|, rolls)), rolls)
      else done
  }

  /** The pairs the outer loop of Map::CollideActors() tests in rows 0 to i-1, in order. */
  ghost function PairsUpTo(em: EngineMath, s: seq<Option<Actor>>, i: nat, rolls: (nat, nat) -> real): seq<(nat, nat)>
    decreases i
  {
    if i == 0 then []
    else
      var done := RowsUpTo(em, s, i - 1, rolls);
      PairsUpTo(em, s, i - 1, rolls) +
        if i - 1 < |done| && IsActorAlive(done[i - 1]) then RowPairs(i - 1, RowVisits(em, done, i - 1, |done|, rolls)) else []
  }

  /** Rows 0 to i: row i, on the slots rows 0 to i-1 left, runs only when slot i holds a live actor. */
  lemma RowsUpToStep(em: EngineMath, s: seq<Option<Actor>>, i: nat, rolls: (nat, nat) -> real,
                     done: seq<Option<Actor>>, pairs: seq<(nat, nat)>)
    requires i < |s| && done == RowsUpTo(em, s, i, rolls) && pairs == PairsUpTo(em, s, i, rolls)
    ensures RowsUpTo(em, s, i + 1, rolls) ==
      if IsActorAlive(done[i]) then FoldPairs(em, done, RowPairs(i, RowVisits(em, done, i, |done|, rolls)), rolls) else done
    ensures PairsUpTo(em, s, i + 1, rolls) ==
      pairs + if IsActorAlive(done[i]) then RowPairs(i, RowVisits(em, done, i, |done|, rolls)) else []
  {
  }

  /**
   * The slot array after the pairs are collided in order, pair (a, b) with
   * the rolls (a, b) and (b, a).
   */
  function FoldPairs(em: EngineMath, s: seq<Option<Actor>>, pairs: seq<(nat, nat)>, rolls: (nat, nat) -> real): (r: seq<Option<Actor>>)
    ensures |r| == |s|
    decreases |pairs|
  {
    if |pairs| == 0 then s
    else
      var p := pairs[|pairs| - 1];
      PairOutcome(em, FoldPairs(em, s, pairs[..|pairs| - 1], rolls), p.0, p.1, rolls(p.0, p.1), rolls(p.1, p.0))
  }

  /** The outer loop of Map::CollideActors() leaves the slots as the pairs it tests, collided in order, leave them. */
  lemma {:induction false} PairsFoldToRows(em: EngineMath, s: seq<Option<Actor>>, i: nat, rolls: (nat, nat) -> real)
    ensures FoldPairs(em, s, PairsUpTo(em, s, i, rolls), rolls) == RowsUpTo(em, s, i, rolls)
    decreases i
  {
    if i > 0 {
      PairsFoldToRows(em, s, i - 1, rolls);
      var done := RowsUpTo(em, s, i - 1, rolls);
      var prev := PairsUpTo(em, s, i - 1, rolls);
      var row := if i - 1 < |done| && IsActorAlive(done[i - 1]) then RowPairs(i - 1, RowVisits(em, done, i - 1, |done|, rolls)) else [];
      assert PairsUpTo(em, s, i, rolls) == prev + row;
      assert RowsUpTo(em, s, i, rolls) == FoldPairs(em, done, row, rolls);
      FoldPairsConcat(em, s, prev, row, rolls);
    }
  }

  /** Colliding the pairs of `first`, then those of `second`, is colliding the pairs of both in order. */
  lemma {:induction false} FoldPairsConcat(em: EngineMath, s: seq<Option<Actor>>, first: seq<(nat, nat)>,
                                           second: seq<(nat, nat)>, rolls: (nat, nat) -> real)
    ensures FoldPairs(em, s, first + second, rolls) == FoldPairs(em, FoldPairs(em, s, first, rolls), second, rolls)
    decreases |second|
  {
    if |second| == 0 {
      assert first + second == first;
    } else {
      var n := |second| - 1;
      var last := second[n];
      var both := first + second;
      assert both[..|both| - 1] == first + second[..n];
      assert both[|both| - 1] == last;
      var t := FoldPairs(em, s, first, rolls);
      calc {
        FoldPairs(em, s, both, rolls);
        PairOutcome(em, FoldPairs(em, s, first + second[..n], rolls), last.0, last.1, rolls(last.0, last.1),
                    rolls(last.1, last.0));
        { FoldPairsConcat(em, s, first, second[..n], rolls); }
        PairOutcome(em, FoldPairs(em, t, second[..n], rolls), last.0, last.1, rolls(last.0, last.1), rolls(last.1, last.0));
        FoldPairs(em, t, second, rolls);
      }
    }
  }

  /** The second slot of every pair held a live actor when the pair was reached. */
  predicate AliveWhenReached(em: EngineMath, start: seq<Option<Actor>>, pairs: seq<(nat, nat)>, rolls: (nat, nat) -> real)
  {
    forall x :: 0 <= x < |pairs| ==>
      pairs[x].1 < |start| && IsActorAlive(FoldPairs(em, start, pairs[..x], rolls)[pairs[x].1])
  }

  /** Pair x opens a row: it is the first pair, or its first slot differs from that of the pair before. */
  predicate RowHead(pairs: seq<(nat, nat)>, x: int)
  {
    0 <= x < |pairs| && (x == 0 || pairs[x - 1].0 != pairs[x].0)
  }

  /** The first slot of each row held a live actor when its row began (its first pair was reached). */
  predicate RowsStartAlive(em: EngineMath, start: seq<Option<Actor>>, pairs: seq<(nat, nat)>, rolls: (nat, nat) -> real)
  {
    forall x :: 0 <= x < |pairs| && RowHead(pairs, x) ==>
      pairs[x].0 < |start| && IsActorAlive(FoldPairs(em, start, pairs[..x], rolls)[pairs[x].0])
  }

  /** Reaching one more pair whose second slot is alive keeps AliveWhenReached. */
  lemma AliveWhenReachedSnoc(em: EngineMath, start: seq<Option<Actor>>, pairs: seq<(nat, nat)>, p: (nat, nat),
                             rolls: (nat, nat) -> real)
    requires AliveWhenReached(em, start, pairs, rolls)
    requires p.1 < |start| && IsActorAlive(FoldPairs(em, start, pairs, rolls)[p.1])
    ensures AliveWhenReached(em, start, pairs + [p], rolls)
  {
    var all := pairs + [p];
    forall x | 0 <= x < |all|
      ensures all[x].1 < |start| && IsActorAlive(FoldPairs(em, start, all[..x], rolls)[all[x].1])
    {
      assert all[..x] == if x < |pairs| then pairs[..x] else pairs;
    }
  }

  /** Pair p comes before pair q in the order of the nested loops. */
  predicate PairBefore(p: (nat, nat), q: (nat, nat))
  {
    p.0 < q.0 || (p.0 == q.0 && p.1 < q.1)
  }

  /**
   * The inner loop of Map::CollideActors() for row i: each later slot j
   * holding a live actor when it is reached is paired with slot i, whether
   * or not slot i's actor is still alive by then. `row` lists the j visited,
   * in increasing order.
   */
  method CollideRow(m: Map, em: EngineMath, i: nat, rolls: (nat, nat) -> real) returns (ghost row: seq<nat>)
    requires m.Valid() && i < |m.actors| && m.actors[i].Some?
    modifies m`actors, m`player, m`ais
    ensures |m.actors| == old(|m.actors|)
    ensures forall x :: 0 <= x < |row| ==> i < row[x] < |m.actors| && IsActorAlive(old(m.actors)[row[x]])
    ensures forall b :: i < b < |m.actors| && IsActorAlive(m.actors[b]) ==> b in row
    ensures forall x, y :: 0 <= x < y < |row| ==> row[x] < row[y]
    ensures m.actors == FoldPairs(em, old(m.actors), RowPairs(i, row), rolls)
    ensures row == RowVisits(em, old(m.actors), i, |m.actors|, rolls)
    ensures AliveWhenReached(em, old(m.actors), RowPairs(i, row), rolls)
    ensures m.Valid() && Evolves(old(m.actors), m.actors) && KeepsSlots(old(m.actors), m.actors)
  {
    ghost var start := m.actors;
    EvolvesReflexive(start);
    row := [];
    var j: nat := i + 1;
    while j < |m.actors|
      invariant i < j <= |m.actors| && m.Valid() && RowState(em, start, m.actors, i, j, row, rolls)
    {
      row := VisitSlot(m, em, i, j, rolls, start, row);
      j := j + 1;
    }
    RowVisitsExact(em, start, i, row, rolls);
  }

  /** The invariant of CollideRow's loop after the slots before j: `row` lists the j visited. */
  ghost predicate RowState(em: EngineMath, start: seq<Option<Actor>>, actors: seq<Option<Actor>>, i: nat, j: nat,
                           row: seq<nat>, rolls: (nat, nat) -> real)
  {
    i < j <= |actors| == |start| && actors[i].Some? &&
    Evolves(start, actors) && KeepsSlots(start, actors) &&
    (forall x :: 0 <= x < |row| ==> i < row[x] < j && IsActorAlive(start[row[x]])) &&
    (forall b :: i < b < j && IsActorAlive(actors[b]) ==> b in row) &&
    (forall x, y :: 0 <= x < y < |row| ==> row[x] < row[y]) &&
    actors == FoldPairs(em, start, RowPairs(i, row), rolls) &&
    AliveWhenReached(em, start, RowPairs(i, row), rolls)
  }

  /** One pass of CollideRow's loop: slot j, when it holds a live actor, is paired with slot i. */
  method VisitSlot(m: Map, em: EngineMath, i: nat, j: nat, rolls: (nat, nat) -> real,
                   ghost start: seq<Option<Actor>>, ghost row: seq<nat>) returns (ghost next: seq<nat>)
    requires m.Valid() && j < |m.actors| && RowState(em, start, m.actors, i, j, row, rolls)
    modifies m`actors, m`player, m`ais
    ensures m.Valid() && RowState(em, start, m.actors, i, j + 1, next, rolls)
  {
    if IsActorAlive(m.actors[j]) {
      PairSlot(m, em, i, j, rolls, start, row);
      next := row + [j];
    } else {
      SkipStep(row, i, j, m.actors);
      next := row;
    }
  }

  /** VisitSlot for a live actor in slot j: the pair (i, j) is tested and joins the row. */
  method PairSlot(m: Map, em: EngineMath, i: nat, j: nat, rolls: (nat, nat) -> real,
                  ghost start: seq<Option<Actor>>, ghost row: seq<nat>)
    requires m.Valid() && j < |m.actors| && RowState(em, start, m.actors, i, j, row, rolls) && IsActorAlive(m.actors[j])
    modifies m`actors, m`player, m`ais
    ensures m.Valid() && RowState(em, start, m.actors, i, j + 1, row + [j], rolls)
    ensures m.actors == PairOutcome(em, old(m.actors), i, j, rolls(i, j), rolls(j, i))
  {
    ghost var before := m.actors;
    var _ := CollidePair(m, em, i, j, rolls(i, j), rolls(j, i));
    PairStep(row, i, j, start, before, m.actors);
    RowPairsSnoc(em, start, i, row, j, rolls);
  }

  /** One tested pair of CollideRow keeps the row loop's invariants. */
  lemma PairStep(row: seq<nat>, i: nat, j: nat,
                 start: seq<Option<Actor>>, before: seq<Option<Actor>>, after: seq<Option<Actor>>)
    requires i < j < |before| && IsActorAlive(before[j])
    requires Evolves(start, before) && KeepsSlots(start, before) && |start| == |before|
    requires Evolves(before, after) && KeepsSlots(before, after)
    requires forall x :: 0 <= x < |row| ==> i < row[x] < j && IsActorAlive(start[row[x]])
    requires forall b :: i < b < j && IsActorAlive(before[b]) ==> b in row
    requires forall x, y :: 0 <= x < y < |row| ==> row[x] < row[y]
    ensures Evolves(start, after) && KeepsSlots(start, after)
    ensures forall x :: 0 <= x < |row + [j]| ==> i < (row + [j])[x] < j + 1 && IsActorAlive(start[(row + [j])[x]])
    ensures forall b :: i < b < j + 1 && IsActorAlive(after[b]) ==> b in row + [j]
    ensures forall x, y :: 0 <= x < y < |row + [j]| ==> (row + [j])[x] < (row + [j])[y]
  {
    EvolvesTransitive(start, before, after);
    AliveNowAliveBefore(start, before);
    AliveNowAliveBefore(before, after);
  }

  /** Colliding one more pair of a row extends the fold and keeps AliveWhenReached. */
  lemma RowPairsSnoc(em: EngineMath, start: seq<Option<Actor>>, i: nat, row: seq<nat>, j: nat, rolls: (nat, nat) -> real)
    requires AliveWhenReached(em, start, RowPairs(i, row), rolls)
    requires j < |start| && IsActorAlive(FoldPairs(em, start, RowPairs(i, row), rolls)[j])
    ensures FoldPairs(em, start, RowPairs(i, row + [j]), rolls) ==
      PairOutcome(em, FoldPairs(em, start, RowPairs(i, row), rolls), i, j, rolls(i, j), rolls(j, i))
    ensures AliveWhenReached(em, start, RowPairs(i, row + [j]), rolls)
  {
    assert RowPairs(i, row + [j]) == RowPairs(i, row) + [(i, j)];
    assert (RowPairs(i, row) + [(i, j)])[..|row|] == RowPairs(i, row);
    AliveWhenReachedSnoc(em, start, RowPairs(i, row), (i, j), rolls);
  }

  /** A skipped slot of CollideRow keeps the row loop's invariants. */
  lemma SkipStep(row: seq<nat>, i: nat, j: nat, actors: seq<Option<Actor>>)
    requires i < j < |actors| && !IsActorAlive(actors[j])
    requires forall b :: i < b < j && IsActorAlive(actors[b]) ==> b in row
    ensures forall b :: i < b < j + 1 && IsActorAlive(actors[b]) ==> b in row
  {
  }

  /** The pairs (i, b) for each b of a row, in order. */
  function RowPairs(i: nat, row: seq<nat>): (pairs: seq<(nat, nat)>)
    ensures |pairs| == |row|
    ensures forall x :: 0 <= x < |row| ==> pairs[x] == (i, row[x])
  {
    seq(|row|, x requires 0 <= x < |row| => (i, row[x]))
  }

  /** Colliding pairs none of which names slot j leaves slot j as it was. */
  lemma {:induction false} FoldKeepsSlot(em: EngineMath, s: seq<Option<Actor>>, pairs: seq<(nat, nat)>, j: nat,
                                         rolls: (nat, nat) -> real)
    requires j < |s| && forall x :: 0 <= x < |pairs| ==> pairs[x].0 != j && pairs[x].1 != j
    ensures FoldPairs(em, s, pairs, rolls)[j] == s[j]
    decreases |pairs|
  {
    if |pairs| > 0 {
      FoldKeepsSlot(em, s, pairs[..|pairs| - 1], j, rolls);
    }
  }

  /**
   * A row is determined by where it starts: a finished row that lists, in
   * increasing order, only slots after i that held a live actor when
   * reached, and every slot after i holding a live actor at its end, is
   * the row RowVisits reaches over all the slots.
   */
  lemma RowVisitsExact(em: EngineMath, s: seq<Option<Actor>>, i: nat, row: seq<nat>, rolls: (nat, nat) -> real)
    requires i < |s|
    requires forall x :: 0 <= x < |row| ==> i < row[x] < |s|
    requires forall x, y :: 0 <= x < y < |row| ==> row[x] < row[y]
    requires forall b :: i < b < |s| && IsActorAlive(FoldPairs(em, s, RowPairs(i, row), rolls)[b]) ==> b in row
    requires AliveWhenReached(em, s, RowPairs(i, row), rolls)
    ensures RowVisits(em, s, i, |s|, rolls) == row
  {
    var reached := ReachedAlive(em, s, i, rolls);
    forall x | 0 <= x < |row|
      ensures reached(row[..x], row[x])
    {
      VisitedAliveWhenReached(em, s, i, row, rolls, x);
    }
    forall b, k | 0 <= k <= |row| && i < b < |s| && (k < |row| ==> b < row[k]) && (0 < k ==> row[k - 1] < b)
      ensures !reached(row[..k], b)
    {
      SkippedNotAlive(em, s, i, row, rolls, b, k);
    }
    ScanDecided(i, row, reached, |s|, |row|);
    assert row[..|row|] == row;
  }

  /**
   * A scan up to j is the first k slots of `row`, those below j, when the
   * scan's test holds of each listed slot as it is reached and of no slot
   * between two listed ones.
   */
  lemma {:induction false} ScanDecided(i: nat, row: seq<nat>, reached: (seq<nat>, nat) -> bool, j: nat, k: nat)
    requires i < j && k <= |row|
    requires forall x :: 0 <= x < |row| ==> i < row[x]
    requires forall x, y :: 0 <= x < y < |row| ==> row[x] < row[y]
    requires forall x :: 0 <= x < |row| ==> reached(row[..x], row[x])
    requires forall b, x :: 0 <= x <= |row| && i < b < j && (x < |row| ==> b < row[x]) && (0 < x ==> row[x - 1] < b) ==>
      !reached(row[..x], b)
    requires forall x :: 0 <= x < k ==> row[x] < j
    requires forall x :: k <= x < |row| ==> j <= row[x]
    ensures Scan(i, j, reached) == row[..k]
    decreases j
  {
    if j <= i + 1 {
    } else if k > 0 && row[k - 1] == j - 1 {
      forall x | 0 <= x < k - 1 ensures row[x] < j - 1 {
        assert row[x] < row[k - 1];
      }
      ScanDecided(i, row, reached, j - 1, k - 1);
      PrefixSnoc(row, k);
    } else {
      assert k > 0 ==> row[k - 1] < j - 1;
      ScanDecided(i, row, reached, j - 1, k);
      assert !reached(row[..k], j - 1);
    }
  }

  /** A prefix one longer is the shorter prefix followed by one more element. */
  lemma PrefixSnoc(row: seq<nat>, k: nat)
    requires 0 < k <= |row|
    ensures row[..k] == row[..k - 1] + [row[k - 1]]
  {
  }

  /** In an increasing row, a value between the (k-1)-th and k-th entries lies above the first k and below the rest. */
  lemma Between(row: seq<nat>, b: nat, k: nat)
    requires k <= |row| && forall x, y :: 0 <= x < y < |row| ==> row[x] < row[y]
    requires (k < |row| ==> b < row[k]) && (0 < k ==> row[k - 1] < b)
    ensures forall x :: 0 <= x < k ==> row[x] < b
    ensures forall x :: k <= x < |row| ==> b < row[x]
  {
    forall x | 0 <= x < k ensures row[x] < b {
      if x < k - 1 { assert row[x] < row[k - 1]; }
    }
    forall x | k <= x < |row| ensures b < row[x] {
      if x > k { assert row[k] < row[x]; }
    }
  }

  /** The x-th slot a row lists held a live actor when the row reached it. */
  lemma VisitedAliveWhenReached(em: EngineMath, s: seq<Option<Actor>>, i: nat, row: seq<nat>,
                                rolls: (nat, nat) -> real, x: nat)
    requires x < |row| && AliveWhenReached(em, s, RowPairs(i, row), rolls)
    ensures row[x] < |s| && IsActorAlive(FoldPairs(em, s, RowPairs(i, row[..x]), rolls)[row[x]])
  {
    assert RowPairs(i, row)[..x] == RowPairs(i, row[..x]);
  }

  /**
   * A slot after i that a finished row does not list, between its k-th
   * listed slot and the one before, did not hold a live actor when the row
   * reached it: the later pairs leave it as it was.
   */
  lemma SkippedNotAlive(em: EngineMath, s: seq<Option<Actor>>, i: nat, row: seq<nat>,
                        rolls: (nat, nat) -> real, b: nat, k: nat)
    requires i < b < |s| && k <= |row|
    requires forall x, y :: 0 <= x < y < |row| ==> row[x] < row[y]
    requires forall b' :: i < b' < |s| && IsActorAlive(FoldPairs(em, s, RowPairs(i, row), rolls)[b']) ==> b' in row
    requires (k < |row| ==> b < row[k]) && (0 < k ==> row[k - 1] < b)
    ensures !IsActorAlive(FoldPairs(em, s, RowPairs(i, row[..k]), rolls)[b])
  {
    Between(row, b, k);
    RowPairsPrefix(i, row, k);
    FoldSuffixKeeps(em, s, RowPairs(i, row), k, b, rolls);
  }

  /** The pairs of a row's first k slots are the row's first k pairs. */
  lemma RowPairsPrefix(i: nat, row: seq<nat>, k: nat)
    requires k <= |row|
    ensures RowPairs(i, row)[..k] == RowPairs(i, row[..k])
  {
  }

  /** Pairs after the k-th that do not name slot b leave slot b as the first k pairs left it. */
  lemma FoldSuffixKeeps(em: EngineMath, s: seq<Option<Actor>>, pairs: seq<(nat, nat)>, k: nat, b: nat,
                        rolls: (nat, nat) -> real)
    requires k <= |pairs| && b < |s|
    requires forall x :: k <= x < |pairs| ==> pairs[x].0 != b && pairs[x].1 != b
    ensures FoldPairs(em, s, pairs, rolls)[b] == FoldPairs(em, s, pairs[..k], rolls)[b]
  {
    assert pairs == pairs[..k] + pairs[k..];
    FoldPairsConcat(em, s, pairs[..k], pairs[k..], rolls);
    FoldKeepsSlot(em, FoldPairs(em, s, pairs[..k], rolls), pairs[k..], b, rolls);
  }

  /** Every pair in `visited` lies in a row before `i` and held two live actors in `start`. */
  predicate VisitedFrom(visited: seq<(nat, nat)>, i: nat, start: seq<Option<Actor>>)
  {
    forall x :: 0 <= x < |visited| ==>
      visited[x].0 < i && visited[x].0 < visited[x].1 < |start| &&
      IsActorAlive(start[visited[x].0]) && IsActorAlive(start[visited[x].1])
  }

  /** Every pair of live actors in `actors` whose first slot is before `i` is in `visited`. */
  predicate Covered(visited: seq<(nat, nat)>, i: nat, actors: seq<Option<Actor>>)
  {
    forall a, b :: 0 <= a < i && a < b < |actors| && IsActorAlive(actors[a]) && IsActorAlive(actors[b]) ==>
      (a, b) in visited
  }

  /** The pairs are listed in the order of the nested loops. */
  predicate InLoopOrder(visited: seq<(nat, nat)>)
  {
    forall x, y :: 0 <= x < y < |visited| ==> PairBefore(visited[x], visited[y])
  }

  /**
   * One Map::CollideActors() pass from `before` to `after` on values: the
   * pairs `visited` were live at the start, in loop order, every pair still
   * live at the end was visited, and the slots are the pairs collided in
   * that order.
   */
  ghost predicate ActorsCollided(em: EngineMath, before: seq<Option<Actor>>, after: seq<Option<Actor>>,
                                 visited: seq<(nat, nat)>, rolls: (nat, nat) -> real)
  {
    |after| == |before| && VisitedFrom(visited, |before|, before) && Covered(visited, |after|, after) &&
    InLoopOrder(visited) && after == FoldPairs(em, before, visited, rolls) &&
    AliveWhenReached(em, before, visited, rolls) && RowsStartAlive(em, before, visited, rolls) &&
    after == RowsUpTo(em, before, |before|, rolls) && visited == PairsUpTo(em, before, |before|, rolls)
  }

  /**
   * Map::CollideActors(): for each slot i holding a live actor when its row
   * starts, the row above. `visited` lists the pairs tested in order: each
   * was alive at the start, each pair still alive at the end was visited,
   * and the order is that of the nested loops. The rolled collision damage
   * of slot a against slot b is rolls(a, b).
   */
  method CollideActors(m: Map, em: EngineMath, rolls: (nat, nat) -> real) returns (ghost visited: seq<(nat, nat)>)
    requires m.Valid()
    modifies m`actors, m`player, m`ais
    ensures |m.actors| == old(|m.actors|)
    ensures VisitedFrom(visited, |m.actors|, old(m.actors))
    ensures Covered(visited, |m.actors|, m.actors)
    ensures InLoopOrder(visited)
    ensures m.actors == FoldPairs(em, old(m.actors), visited, rolls)
    ensures AliveWhenReached(em, old(m.actors), visited, rolls) && RowsStartAlive(em, old(m.actors), visited, rolls)
    ensures m.actors == RowsUpTo(em, old(m.actors), |m.actors|, rolls)
    ensures visited == PairsUpTo(em, old(m.actors), |m.actors|, rolls)
    ensures ActorsCollided(em, old(m.actors), m.actors, visited, rolls)
    ensures m.Valid() && Evolves(old(m.actors), m.actors) && KeepsSlots(old(m.actors), m.actors)
  {
    ghost var start := m.actors;
    EvolvesReflexive(start);
    visited := [];
    var i := 0;
    while i < |m.actors|
      invariant PairsSoFar(m, em, start, visited, i, rolls)
      invariant m.actors == RowsUpTo(em, start, i, rolls) && visited == PairsUpTo(em, start, i, rolls)
    {
      visited := VisitRow(m, em, i, rolls, start, visited);
      i := i + 1;
    }
  }

  /**
   * The state of CollideActors once rows 0 to i-1 are done: `visited` holds
   * the pairs tested so far, in loop order, and the slot array is their fold.
   */
  ghost predicate PairsSoFar(m: Map, em: EngineMath, start: seq<Option<Actor>>, visited: seq<(nat, nat)>, i: nat,
                             rolls: (nat, nat) -> real)
    reads m
  {
    i <= |m.actors| == |start| &&
    m.Valid() && Evolves(start, m.actors) && KeepsSlots(start, m.actors) &&
    VisitedFrom(visited, i, start) && Covered(visited, i, m.actors) && InLoopOrder(visited) &&
    m.actors == FoldPairs(em, start, visited, rolls) &&
    AliveWhenReached(em, start, visited, rolls) && RowsStartAlive(em, start, visited, rolls)
  }

  /** Row i of CollideActors: the inner loop when the actor in slot i is alive, else nothing. */
  method VisitRow(m: Map, em: EngineMath, i: nat, rolls: (nat, nat) -> real,
                  ghost start: seq<Option<Actor>>, ghost visited: seq<(nat, nat)>) returns (ghost next: seq<(nat, nat)>)
    requires i < |m.actors| && PairsSoFar(m, em, start, visited, i, rolls)
    requires m.actors == RowsUpTo(em, start, i, rolls) && visited == PairsUpTo(em, start, i, rolls)
    modifies m`actors, m`player, m`ais
    ensures PairsSoFar(m, em, start, next, i + 1, rolls)
    ensures m.actors == RowsUpTo(em, start, i + 1, rolls) && next == PairsUpTo(em, start, i + 1, rolls)
    ensures m.actors == if IsActorAlive(old(m.actors[i]))
      then FoldPairs(em, old(m.actors), RowPairs(i, RowVisits(em, old(m.actors), i, |m.actors|, rolls)), rolls)
      else old(m.actors)
  {
    RowsUpToStep(em, start, i, rolls, m.actors, visited);
    if IsActorAlive(m.actors[i]) {
      ghost var before := m.actors;
      ghost var row := CollideRow(m, em, i, rolls);
      RowStep(visited, i, row, start, before, m.actors);
      RowFolds(em, start, visited, i, row, rolls);
      next := visited + RowPairs(i, row);
    } else {
      CoveredSkip(visited, i, m.actors);
      next := visited;
    }
  }

  /** A row whose head is not alive adds no pair to cover. */
  lemma CoveredSkip(visited: seq<(nat, nat)>, i: nat, actors: seq<Option<Actor>>)
    requires Covered(visited, i, actors) && i < |actors| && !IsActorAlive(actors[i])
    ensures Covered(visited, i + 1, actors)
  {
  }

  /** One row of CollideActors keeps the loop's invariants. */
  lemma RowStep(visited: seq<(nat, nat)>, i: nat, row: seq<nat>,
                start: seq<Option<Actor>>, before: seq<Option<Actor>>, after: seq<Option<Actor>>)
    requires i < |before| && IsActorAlive(before[i])
    requires Evolves(start, before) && KeepsSlots(start, before) && |start| == |before|
    requires Evolves(before, after) && KeepsSlots(before, after)
    requires VisitedFrom(visited, i, start) && Covered(visited, i, before) && InLoopOrder(visited)
    requires forall x :: 0 <= x < |row| ==> i < row[x] < |after| && IsActorAlive(before[row[x]])
    requires forall b :: i < b < |after| && IsActorAlive(after[b]) ==> b in row
    requires forall x, y :: 0 <= x < y < |row| ==> row[x] < row[y]
    ensures Evolves(start, after) && KeepsSlots(start, after)
    ensures VisitedFrom(visited + RowPairs(i, row), i + 1, start)
    ensures Covered(visited + RowPairs(i, row), i + 1, after)
    ensures InLoopOrder(visited + RowPairs(i, row))
  {
    EvolvesTransitive(start, before, after);
    AliveNowAliveBefore(start, before);
    AliveNowAliveBefore(before, after);
    var all := visited + RowPairs(i, row);
    forall x | 0 <= x < |all|
      ensures all[x].0 < i + 1 && all[x].0 < all[x].1 < |start| &&
              IsActorAlive(start[all[x].0]) && IsActorAlive(start[all[x].1])
    {
      if x >= |visited| {
        assert all[x] == (i, row[x - |visited|]);
      }
    }
    forall a, b | 0 <= a < i + 1 && a < b < |after| && IsActorAlive(after[a]) && IsActorAlive(after[b])
      ensures (a, b) in all
    {
      if a < i {
        assert (a, b) in visited;
      } else {
        var x :| 0 <= x < |row| && row[x] == b;
        assert all[|visited| + x] == (i, b);
      }
    }
    forall x, y | 0 <= x < y < |all|
      ensures PairBefore(all[x], all[y])
    {
      if y >= |visited| && x < |visited| {
        assert all[x].0 < i && all[y].0 == i;
      }
    }
  }

  /**
   * A row whose first slot is alive when it begins, folded after the rows
   * before it, extends the fold, AliveWhenReached and RowsStartAlive.
   */
  lemma RowFolds(em: EngineMath, start: seq<Option<Actor>>, visited: seq<(nat, nat)>, i: nat, row: seq<nat>,
                 rolls: (nat, nat) -> real)
    requires forall x :: 0 <= x < |visited| ==> visited[x].0 < i
    requires i < |start| && IsActorAlive(FoldPairs(em, start, visited, rolls)[i])
    requires AliveWhenReached(em, start, visited, rolls) && RowsStartAlive(em, start, visited, rolls)
    requires AliveWhenReached(em, FoldPairs(em, start, visited, rolls), RowPairs(i, row), rolls)
    ensures FoldPairs(em, start, visited + RowPairs(i, row), rolls) ==
      FoldPairs(em, FoldPairs(em, start, visited, rolls), RowPairs(i, row), rolls)
    ensures AliveWhenReached(em, start, visited + RowPairs(i, row), rolls)
    ensures RowsStartAlive(em, start, visited + RowPairs(i, row), rolls)
  {
    FoldPairsConcat(em, start, visited, RowPairs(i, row), rolls);
    RowAliveWhenReached(em, start, visited, i, row, rolls);
    RowStartsAlive(em, start, visited, i, row, rolls);
  }

  /** The fold over a prefix of `visited` followed by a row reaching into the row. */
  lemma FoldIntoRow(em: EngineMath, start: seq<Option<Actor>>, visited: seq<(nat, nat)>, i: nat, row: seq<nat>,
                    rolls: (nat, nat) -> real, x: nat)
    requires |visited| <= x <= |visited| + |row|
    ensures (visited + RowPairs(i, row))[..x] == visited + RowPairs(i, row)[..x - |visited|]
    ensures FoldPairs(em, start, (visited + RowPairs(i, row))[..x], rolls) ==
      FoldPairs(em, FoldPairs(em, start, visited, rolls), RowPairs(i, row)[..x - |visited|], rolls)
  {
    assert (visited + RowPairs(i, row))[..x] == visited + RowPairs(i, row)[..x - |visited|];
    FoldPairsConcat(em, start, visited, RowPairs(i, row)[..x - |visited|], rolls);
  }

  /** AliveWhenReached carries over from the rows before to the row just folded. */
  lemma RowAliveWhenReached(em: EngineMath, start: seq<Option<Actor>>, visited: seq<(nat, nat)>, i: nat, row: seq<nat>,
                            rolls: (nat, nat) -> real)
    requires AliveWhenReached(em, start, visited, rolls)
    requires AliveWhenReached(em, FoldPairs(em, start, visited, rolls), RowPairs(i, row), rolls)
    ensures AliveWhenReached(em, start, visited + RowPairs(i, row), rolls)
  {
    var all := visited + RowPairs(i, row);
    forall x | 0 <= x < |all|
      ensures all[x].1 < |start| && IsActorAlive(FoldPairs(em, start, all[..x], rolls)[all[x].1])
    {
      if x < |visited| {
        assert all[..x] == visited[..x];
      } else {
        FoldIntoRow(em, start, visited, i, row, rolls, x);
        assert all[x] == RowPairs(i, row)[x - |visited|];
      }
    }
  }

  /** RowsStartAlive carries over to a row whose first slot is alive when it begins. */
  lemma RowStartsAlive(em: EngineMath, start: seq<Option<Actor>>, visited: seq<(nat, nat)>, i: nat, row: seq<nat>,
                       rolls: (nat, nat) -> real)
    requires forall x :: 0 <= x < |visited| ==> visited[x].0 < i
    requires i < |start| && IsActorAlive(FoldPairs(em, start, visited, rolls)[i])
    requires RowsStartAlive(em, start, visited, rolls)
    ensures RowsStartAlive(em, start, visited + RowPairs(i, row), rolls)
  {
    var all := visited + RowPairs(i, row);
    forall x | 0 <= x < |all| && RowHead(all, x)
      ensures all[x].0 < |start| && IsActorAlive(FoldPairs(em, start, all[..x], rolls)[all[x].0])
    {
      RowStartAliveAt(em, start, visited, i, row, rolls, x);
    }
  }

  /** RowStartsAlive at one pair x of the extended list. */
  lemma RowStartAliveAt(em: EngineMath, start: seq<Option<Actor>>, visited: seq<(nat, nat)>, i: nat, row: seq<nat>,
                        rolls: (nat, nat) -> real, x: nat)
    requires forall x :: 0 <= x < |visited| ==> visited[x].0 < i
    requires i < |start| && IsActorAlive(FoldPairs(em, start, visited, rolls)[i])
    requires RowsStartAlive(em, start, visited, rolls)
    requires RowHead(visited + RowPairs(i, row), x)
    ensures var all := visited + RowPairs(i, row);
      all[x].0 < |start| && IsActorAlive(FoldPairs(em, start, all[..x], rolls)[all[x].0])
  {
    var all := visited + RowPairs(i, row);
    if x < |visited| {
      assert all[..x] == visited[..x];
      assert x == 0 || all[x - 1] == visited[x - 1];
      assert all[x] == visited[x];
      assert RowHead(visited, x);
    } else if x > |visited| {
      assert false;
    } else {
      assert all[..x] == visited;
      var pairs := RowPairs(i, row);
      assert 0 < |pairs| && all[x] == pairs[x - |visited|];
      assert pairs[0] == (i, row[0]);
    }
  }

  /** KeepsSlots composes. */
  lemma KeepsSlotsTransitive(a: seq<Option<Actor>>, b: seq<Option<Actor>>, c: seq<Option<Actor>>)
    requires KeepsSlots(a, b) && KeepsSlots(b, c)
    ensures KeepsSlots(a, c)
  {
  }

  /** Within a frame an actor alive now was alive before: death is never undone and slots are never refilled. */
  lemma AliveNowAliveBefore(before: seq<Option<Actor>>, after: seq<Option<Actor>>)
    requires Evolves(before, after) && KeepsSlots(before, after)
    ensures forall k :: 0 <= k < |after| && IsActorAlive(after[k]) ==> IsActorAlive(before[k])
  {
    forall k | 0 <= k < |after| && IsActorAlive(after[k])
      ensures IsActorAlive(before[k])
    {
      assert SlotEvolves(before[k], after[k]);
    }
  }

  // ---------------------------------------------------------------- the damage notification

  /** What the damage step of OnCollide does about the struck actor's controller. */
  datatype Notify = NoNotify | NotifyCtl(ctl: CtlRef) | NullDereference

  /**
   * The damage step as written: whenever the collider deals damage and its
   * owner resolves, the struck actor's controller is called without a null
   * test, so an actor with no controller is a null dereference.
   */
  function DamageNotificationAsWritten(damages: bool, ownerResolves: bool, struckCtl: Option<CtlRef>): (n: Notify)
    ensures n == NullDereference <==> damages && ownerResolves && struckCtl.None?
    ensures n.NotifyCtl? ==> struckCtl == Some(n.ctl)
  {
    if damages && ownerResolves then
      if struckCtl.Some? then NotifyCtl(struckCtl.value) else NullDereference
    else NoNotify
  }

  /**
   * The damage step as intended (and as Weapon::Fire does it): a struck
   * actor with no controller is simply not told.
   */
  function DamageNotification(damages: bool, ownerResolves: bool, struckCtl: Option<CtlRef>): (n: Notify)
    ensures n != NullDereference
    ensures n.NotifyCtl? <==> damages && ownerResolves && struckCtl.Some?
    ensures n.NotifyCtl? ==> struckCtl == Some(n.ctl)
  {
    if damages && ownerResolves && struckCtl.Some? then NotifyCtl(struckCtl.value) else NoNotify
  }

  /** The two agree whenever the struck actor has a controller. */
  lemma NotificationsAgreeWithAController(damages: bool, ownerResolves: bool, struckCtl: Option<CtlRef>)
    ensures struckCtl.Some? ==>
      DamageNotificationAsWritten(damages, ownerResolves, struckCtl) == DamageNotification(damages, ownerResolves, struckCtl)
    ensures DamageNotificationAsWritten(damages, ownerResolves, struckCtl) != NullDereference ==>
      DamageNotificationAsWritten(damages, ownerResolves, struckCtl) == DamageNotification(damages, ownerResolves, struckCtl)
  {
  }

  /**
   * The input that reaches the null dereference: an actor spawned without
   * an AI (the player's marine), possessed by the Player and then released
   * (free-fly mode), struck by a damaging projectile whose owner is alive.
   */
  lemma ReleasedActorWithoutAIIsANullDereference(a: Actor, vr: bool)
    requires a.aiController.None?
    ensures DamageNotificationAsWritten(true, true, OnUnpossessed(OnPossessed(a, PlayerCtl, vr)).controller) == NullDereference
    ensures DamageNotification(true, true, OnUnpossessed(OnPossessed(a, PlayerCtl, vr)).controller) == NoNotify
  {
  }

  // ---------------------------------------------------------------- tiles, floor and ceiling

  /** The tile at grid coordinates c, None outside the grid. */
  function TileAt(tiles: seq<Tile>, dims: IntVec2, c: IntVec2): (t: Option<Tile>)
    requires 0 <= dims.x && 0 <= dims.y && |tiles| == dims.x * dims.y
    ensures t.Some? <==> InBounds(c, dims)
    ensures t.Some? ==> 0 <= TileIndex(c, dims.x) < |tiles| && t.value == tiles[TileIndex(c, dims.x)]
  {
    if InBounds(c, dims) then
      TileIndexInGrid(c, c, dims);
      Some(tiles[TileIndex(c, dims.x)])
    else None
  }

  /**
   * Map::CollideActorWithTileIfSolid: outside the grid or on a tile that is
   * not solid, nothing; otherwise the actor's disc is pushed out of the
   * tile's square, and, if it had to be pushed, it collides with nothing.
   * Its height never changes.
   */
  function CollideWithTile(em: EngineMath, a: Actor, tiles: seq<Tile>, dims: IntVec2, c: IntVec2): (r: Actor)
    requires 0 <= dims.x && 0 <= dims.y && |tiles| == dims.x * dims.y
    ensures TileAt(tiles, dims, c).None? || !IsSolid(TileAt(tiles, dims, c).value) ==> r == a
    ensures TileAt(tiles, dims, c).Some? && IsSolid(TileAt(tiles, dims, c).value) ==>
      var push := em.pushDiscOutOfFixedBox(a.position.XY(), a.physicsRadius, GetBounds(TileAt(tiles, dims, c).value));
      r.position == Vec3(push.1.x, push.1.y, a.position.z) &&
      (push.0 ==> r.isDead == (a.isDead || a.definition.dieOnCollide)) &&
      (!push.0 ==> r.isDead == a.isDead)
    ensures r.position.z == a.position.z
    ensures SameShape(a, r)
    ensures !a.definition.dieOnCollide ==> r.isDead == a.isDead && r.lifetime == a.lifetime
    ensures Persists(a, r)
  {
    match TileAt(tiles, dims, c)
    case None => a
    case Some(t) =>
      if !IsSolid(t) then a
      else
        var push := em.pushDiscOutOfFixedBox(a.position.XY(), a.physicsRadius, GetBounds(t));
        var touched := if push.0 then OnCollideWithNothing(a) else a;
        MovedTo(touched, push.1)
  }

  /** The first n of the eight neighbour tests of Map::CollideActorWithMap, in order. */
  function CollideWithNeighbours(em: EngineMath, a: Actor, tiles: seq<Tile>, dims: IntVec2,
                                                    coords: IntVec2, n: nat): (r: Actor)
    requires n <= 8 && 0 <= dims.x && 0 <= dims.y && |tiles| == dims.x * dims.y
  {
    if n == 0 then a
    else
      var previous := CollideWithNeighbours(em, a, tiles, dims, coords, n - 1);
      CollideWithTile(em, previous, tiles, dims, coords.Plus(NeighbourOffsets()[n - 1]))
  }

  /** What a floor-and-ceiling test decides: leave the actor, set its height and collide with nothing, or kill it. */
  datatype FloorOutcome = Stay | Clamp(z: real) | FallOff

  /** Carries out a floor-and-ceiling decision. */
  function ApplyFloorOutcome(a: Actor, o: FloorOutcome): (r: Actor)
    ensures o.Stay? ==> r == a
    ensures o.Clamp? ==> r == OnCollideWithNothing(a).(position := a.position.(z := o.z))
    ensures o.FallOff? ==> r == Die(a)
    ensures SameShape(a, r)
    ensures r.position.XY() == a.position.XY()
    ensures Persists(a, r)
  {
    match o
    case Stay => a
    case Clamp(z) =>
      var touched := OnCollideWithNothing(a);
      touched.(position := a.position.(z := z))
    case FallOff =>
      DieIdempotent(a);
      Die(a)
  }

  /**
   * Colliding with the neighbouring tiles only moves the actor in XY and may
   * kill it: it keeps its height, weapons and controllers, and on a grid with
   * no tiles nothing happens at all.
   */
  lemma {:induction false} NeighboursKeepHeightAndShape(em: EngineMath, a: Actor, tiles: seq<Tile>, dims: IntVec2,
                                                    coords: IntVec2, n: nat)
    requires n <= 8 && 0 <= dims.x && 0 <= dims.y && |tiles| == dims.x * dims.y
    ensures var r := CollideWithNeighbours(em, a, tiles, dims, coords, n);
      r.position.z == a.position.z && SameShape(a, r) && Persists(a, r) &&
      (!a.definition.dieOnCollide ==> r.isDead == a.isDead && r.lifetime == a.lifetime) &&
      (dims.x == 0 || dims.y == 0 ==> r == a)
  {
    if n > 0 {
      NeighboursKeepHeightAndShape(em, a, tiles, dims, coords, n - 1);
    }
  }

  /**
   * Map::CollideActorWithFloorAndCeiling: below the floor, lifted to z = 0;
   * poking through the ceiling at z = 1, lowered to touch it; either way the
   * actor then collides with nothing.
   */
  function TileMapFloorOutcome(a: Actor): (o: FloorOutcome)
    ensures a.position.z < 0.0 ==> o == Clamp(0.0)
    ensures 0.0 <= a.position.z && a.position.z + a.physicsHeight > 1.0 ==> o == Clamp(1.0 - a.physicsHeight)
    ensures 0.0 <= a.position.z && a.position.z + a.physicsHeight <= 1.0 ==> o == Stay
    ensures o.Clamp? ==> o.z >= 0.0 || a.physicsHeight > 1.0
    ensures o.Clamp? && o.z >= 0.0 ==> o.z + a.physicsHeight <= 1.0 || o.z == 0.0
  {
    if a.position.z < 0.0 then Clamp(0.0)
    else if a.position.z + a.physicsHeight > 1.0 then Clamp(1.0 - a.physicsHeight)
    else Stay
  }

  /**
   * GoldMap::CollideActorWithFloorAndCeiling: there is no ceiling. Below the
   * floor, an actor over the 50 by 50 field is lifted to z = 0 and collides
   * with nothing; one outside the field falls off and dies.
   */
  function GoldFloorOutcome(em: EngineMath, a: Actor, goldDims: IntVec2): (o: FloorOutcome)
    ensures a.position.z >= 0.0 ==> o == Stay
    ensures a.position.z < 0.0 && em.insideBox(a.position.XY(), FieldBounds(goldDims)) ==> o == Clamp(0.0)
    ensures a.position.z < 0.0 && !em.insideBox(a.position.XY(), FieldBounds(goldDims)) ==> o == FallOff
  {
    if a.position.z < 0.0 then
      if em.insideBox(a.position.XY(), FieldBounds(goldDims)) then Clamp(0.0) else FallOff
    else Stay
  }

  /** The gold map's field: from the origin to its dimensions. */
  function FieldBounds(goldDims: IntVec2): AABB2
  {
    AABB2(Vec2(0.0, 0.0), Vec2(goldDims.x as real, goldDims.y as real))
  }

  /** The gold map never clamps at a ceiling, and its floor only kills outside the field. */
  lemma GoldFloorKillsOnlyOffTheField(em: EngineMath, a: Actor, goldDims: IntVec2)
    ensures GoldFloorOutcome(em, a, goldDims).FallOff? <==>
      a.position.z < 0.0 && !em.insideBox(a.position.XY(), FieldBounds(goldDims))
    ensures ApplyFloorOutcome(a, GoldFloorOutcome(em, a, goldDims)).position.z >= 0.0 ||
      GoldFloorOutcome(em, a, goldDims).FallOff?
  {
  }

  /** The virtual CollideActorWithFloorAndCeiling, by the map's dynamic type. */
  function FloorAndCeiling(em: EngineMath, a: Actor, isGold: bool, goldDims: IntVec2): (r: Actor)
    ensures isGold ==> r == ApplyFloorOutcome(a, GoldFloorOutcome(em, a, goldDims))
    ensures !isGold ==> r == ApplyFloorOutcome(a, TileMapFloorOutcome(a))
  {
    ApplyFloorOutcome(a, if isGold then GoldFloorOutcome(em, a, goldDims) else TileMapFloorOutcome(a))
  }

  /**
   * Map::CollideActorWithMap: the eight neighbours of the tile under the
   * actor (E, W, N, S, then the diagonals), then the floor and ceiling.
   */
  function CollideActorWithMap(em: EngineMath, a: Actor, tiles: seq<Tile>, dims: IntVec2,
                               isGold: bool, goldDims: IntVec2): (r: Actor)
    requires 0 <= dims.x && 0 <= dims.y && |tiles| == dims.x * dims.y
    ensures SameShape(a, r)
    ensures Persists(a, r)
    ensures dims.x == 0 || dims.y == 0 ==> r == FloorAndCeiling(em, a, isGold, goldDims)
  {
    var pushed := CollideWithNeighbours(em, a, tiles, dims, TileCoordsOf(a.position.XY()), 8);
    NeighboursKeepHeightAndShape(em, a, tiles, dims, TileCoordsOf(a.position.XY()), 8);
    FloorAndCeiling(em, pushed, isGold, goldDims)
  }

  /** One slot of Map::CollideActorsWithMap: a live actor that is not static collides with the map. */
  function MapPassSlot(em: EngineMath, o: Option<Actor>, tiles: seq<Tile>, dims: IntVec2,
                       isGold: bool, goldDims: IntVec2): (r: Option<Actor>)
    requires 0 <= dims.x && 0 <= dims.y && |tiles| == dims.x * dims.y
    ensures r.Some? <==> o.Some?
    ensures !IsActorAlive(o) || o.value.isStatic ==> r == o
    ensures o.Some? ==> Persists(o.value, r.value)
    ensures o.Some? ==> SameShape(o.value, r.value)
  {
    if IsActorAlive(o) && !o.value.isStatic then Some(CollideActorWithMap(em, o.value, tiles, dims, isGold, goldDims))
    else o
  }

  /** One Map::CollideActorsWithMap pass from `before` to `after` on values: every slot as MapPassSlot leaves it. */
  ghost predicate MapPassed(em: EngineMath, before: seq<Option<Actor>>, after: seq<Option<Actor>>,
                            tiles: seq<Tile>, dims: IntVec2, isGold: bool, goldDims: IntVec2)
  {
    0 <= dims.x && 0 <= dims.y && |tiles| == dims.x * dims.y && |after| == |before| &&
    forall k :: 0 <= k < |before| ==> after[k] == MapPassSlot(em, before[k], tiles, dims, isGold, goldDims)
  }

  /**
   * Map::CollideActorsWithMap: every live actor that is not static collides
   * with the map; dead, static and empty slots are left alone.
   */
  method CollideActorsWithMap(m: Map, em: EngineMath)
    requires m.Valid()
    modifies m`actors
    ensures |m.actors| == old(|m.actors|)
    ensures forall k :: 0 <= k < |m.actors| ==>
      m.actors[k] == MapPassSlot(em, old(m.actors[k]), m.tiles, m.dims, m.isGold, m.goldDims)
    ensures MapPassed(em, old(m.actors), m.actors, m.tiles, m.dims, m.isGold, m.goldDims)
    ensures m.Valid() && Evolves(old(m.actors), m.actors)
  {
    var next := m.actors;
    var i := 0;
    while i < |next|
      invariant 0 <= i <= |next| == |m.actors|
      invariant forall k :: 0 <= k < i ==>
        next[k] == MapPassSlot(em, m.actors[k], m.tiles, m.dims, m.isGold, m.goldDims)
      invariant forall k :: i <= k < |next| ==> next[k] == m.actors[k]
    {
      if IsActorAlive(next[i]) && !next[i].value.isStatic {
        next := next[i := Some(CollideActorWithMap(em, next[i].value, m.tiles, m.dims, m.isGold, m.goldDims))];
      }
      i := i + 1;
    }
    m.SetActors(next);
  }

  /** On the gold map the tile tests never fire: it reports an empty grid, so only the floor applies. */
  lemma GoldMapHasOnlyTheFloor(m: Map, em: EngineMath, a: Actor)
    requires m.Valid() && m.isGold
    ensures CollideActorWithMap(em, a, m.tiles, m.dims, m.isGold, m.goldDims) ==
      ApplyFloorOutcome(a, GoldFloorOutcome(em, a, m.goldDims))
  {
  }

  // ---------------------------------------------------------------- static actors

  /**
   * Actor::OnCollideWithStatic: the actor's disc is pushed out of the static
   * actor's disc at the same height, then the die-on-collide rule applies.
   */
  function OnCollideWithStatic(em: EngineMath, a: Actor, s: StaticActor): (r: Actor)
    ensures r.position == (var xy := em.pushDiscOutOfFixedDisc(a.position.XY(), a.physicsRadius, s.position.XY(), s.physicsRadius);
                           Vec3(xy.x, xy.y, a.position.z))
    ensures r.isDead <==> a.isDead || a.definition.dieOnCollide
    ensures SameShape(a, r)
    ensures Persists(a, r)
  {
    OnCollideWithNothing(MovedTo(a, em.pushDiscOutOfFixedDisc(a.position.XY(), a.physicsRadius,
                                                               s.position.XY(), s.physicsRadius)))
  }

  /** The inner loop of GoldMap::CollideActorsWithStaticActors over the first n static actors, in order. */
  function CollideWithStatics(em: EngineMath, a: Actor, statics: seq<StaticActor>, n: nat): (r: Actor)
    requires n <= |statics|
  {
    if n == 0 then a
    else
      var previous := CollideWithStatics(em, a, statics, n - 1);
      if em.cylindersOverlap(UprightCylinder(previous), StaticCylinder(statics[n - 1]))
      then OnCollideWithStatic(em, previous, statics[n - 1])
      else previous
  }

  /**
   * Colliding with the static actors only moves the actor in XY and may kill
   * it (when it dies on collision): it is the same actor, with its height,
   * weapons and controllers.
   */
  lemma {:induction false} StaticsKeepHeightAndShape(em: EngineMath, a: Actor, statics: seq<StaticActor>, n: nat)
    requires n <= |statics|
    ensures var r := CollideWithStatics(em, a, statics, n);
      r.position.z == a.position.z && SameShape(a, r) && Persists(a, r) &&
      (!a.definition.dieOnCollide ==> r.isDead == a.isDead && r.lifetime == a.lifetime)
  {
    if n > 0 {
      StaticsKeepHeightAndShape(em, a, statics, n - 1);
    }
  }

  /** An actor overlapping no static actor is untouched by them. */
  lemma {:induction false} NoOverlapNoChange(em: EngineMath, a: Actor, statics: seq<StaticActor>, n: nat)
    requires n <= |statics|
    requires forall k :: 0 <= k < n ==> !em.cylindersOverlap(UprightCylinder(a), StaticCylinder(statics[k]))
    ensures CollideWithStatics(em, a, statics, n) == a
  {
    if n > 0 {
      NoOverlapNoChange(em, a, statics, n - 1);
    }
  }

  /** The inner loop of GoldMap::CollideActorsWithStaticActors: the actor against each static actor in turn. */
  method CollideActorWithStatics(em: EngineMath, a: Actor, statics: seq<StaticActor>) returns (r: Actor)
    ensures r == CollideWithStatics(em, a, statics, |statics|)
  {
    r := a;
    var s := 0;
    while s < |statics|
      invariant 0 <= s <= |statics|
      invariant r == CollideWithStatics(em, a, statics, s)
    {
      if em.cylindersOverlap(UprightCylinder(r), StaticCylinder(statics[s])) {
        r := OnCollideWithStatic(em, r, statics[s]);
      }
      s := s + 1;
    }
  }

  /** One slot of GoldMap::CollideActorsWithStaticActors: any actor in the slot meets every static actor. */
  function StaticsPassSlot(em: EngineMath, o: Option<Actor>, statics: seq<StaticActor>): (r: Option<Actor>)
    ensures r.Some? <==> o.Some?
    ensures o.Some? ==> Persists(o.value, r.value)
    ensures o.Some? ==> SameShape(o.value, r.value)
    ensures o.Some? ==> r.value.position.z == o.value.position.z
  {
    if o.Some? then
      StaticsKeepHeightAndShape(em, o.value, statics, |statics|);
      Some(CollideWithStatics(em, o.value, statics, |statics|))
    else None
  }

  /** One GoldMap::CollideActorsWithStaticActors pass on values: every slot as StaticsPassSlot leaves it. */
  ghost predicate StaticsPassed(em: EngineMath, before: seq<Option<Actor>>, after: seq<Option<Actor>>,
                                statics: seq<StaticActor>)
  {
    |after| == |before| && forall k :: 0 <= k < |before| ==> after[k] == StaticsPassSlot(em, before[k], statics)
  }

  /**
   * GoldMap::CollideActorsWithStaticActors: every actor in a slot, dead or
   * alive, is tested against each static actor in turn; unlike the
   * actor-pair pass there is no liveness test.
   */
  method CollideActorsWithStaticActors(m: Map, em: EngineMath)
    requires m.Valid()
    modifies m`actors
    ensures |m.actors| == old(|m.actors|)
    ensures forall k :: 0 <= k < |m.actors| ==> m.actors[k] == StaticsPassSlot(em, old(m.actors[k]), m.staticActors)
    ensures StaticsPassed(em, old(m.actors), m.actors, m.staticActors)
    ensures m.Valid() && Evolves(old(m.actors), m.actors)
  {
    EvolvesReflexive(m.actors);
    var i := 0;
    while i < |m.actors|
      invariant 0 <= i <= |m.actors| == old(|m.actors|)
      invariant m.Valid() && Evolves(old(m.actors), m.actors)
      invariant forall k :: 0 <= k < i ==> m.actors[k] == StaticsPassSlot(em, old(m.actors[k]), m.staticActors)
      invariant forall k :: i <= k < |m.actors| ==> m.actors[k] == old(m.actors[k])
    {
      if m.actors[i].Some? {
        var actor := CollideActorWithStatics(em, m.actors[i].value, m.staticActors);
        StaticsKeepHeightAndShape(em, m.actors[i].value, m.staticActors, |m.staticActors|);
        ghost var before := m.actors;
        m.SetActor(i, actor);
        EvolvesTransitive(old(m.actors), before, m.actors);
      }
      i := i + 1;
    }
  }
}
