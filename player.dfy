/**
 * The Player's own steps in Player::Update that change the simulation: the
 * free-fly camera toggle, which releases the possessed actor and later takes
 * back the last one, and the VR grip buttons, which cycle the weapon each
 * hand holds.
 */
module PlayerControls {

  import opened Wrappers
  import opened ActorUIDs
  import opened Geometry
  import opened Weapons
  import opened Controllers
  import opened Actors
  import opened ActorSlots
  import opened Maps
  import opened Firing

  /**
   * The F key in Player::Update: free-fly mode flips. Entering it releases
   * the actor the Player's handle resolves to (remembering its handle);
   * leaving it possesses again the last released actor, if its handle still
   * resolves. Either way, in free-fly mode the Player drives no actor.
   */
  method ToggleFreeFly(m: Map, em: EngineMath)
    requires m.Valid()
    modifies m`actors, m`ais, m`player
    ensures m.player.freeFlyMode == !old(m.player.freeFlyMode)
    ensures m.ais == old(m.ais)
    ensures var held := old(m.GetActorByUID(m.player.actorUID));
      m.player.freeFlyMode && held.Some? ==>
        m.actors == old(m.actors)[held.value := Some(OnUnpossessed(old(m.actors[held.value].value)))] &&
        m.player.lastPossessedActorUID == old(m.player.actorUID) && m.player.actorUID == ActorUID.INVALID
    ensures var held := old(m.GetActorByUID(m.player.actorUID));
      m.player.freeFlyMode && held.None? ==>
        m.actors == old(m.actors) && m.player == old(m.player).(freeFlyMode := true)
    ensures m.player.freeFlyMode ==> m.GetActor(PlayerCtl).None?
    ensures var last := old(m.GetActorByUID(m.player.lastPossessedActorUID));
      !m.player.freeFlyMode && last.Some? ==>
        m.actors == old(m.actors)[last.value := Some(OnPossessed(old(m.actors[last.value].value), PlayerCtl, m.vr))] &&
        m.player.actorUID == old(m.player.lastPossessedActorUID) && m.player.onMap &&
        (last.value < HALF ==> m.GetActor(PlayerCtl) == last)
    ensures var last := old(m.GetActorByUID(m.player.lastPossessedActorUID));
      !m.player.freeFlyMode && last.None? ==>
        m.actors == old(m.actors) && m.player == old(m.player).(freeFlyMode := false)
    ensures m.Valid() && Evolves(old(m.actors), m.actors)
  {
    EvolvesReflexive(m.actors);
    m.player := m.player.(freeFlyMode := !m.player.freeFlyMode);
    if m.player.freeFlyMode {
      var current := m.GetActorByUID(m.player.actorUID);
      if current.Some? {
        m.PlayerUnpossess(current.value);
      }
    } else {
      var possessing := m.GetActorByUID(m.player.lastPossessedActorUID);
      if possessing.Some? {
        m.PlayerPossess(em, possessing.value);
      }
    }
  }

  /**
   * Toggling free-fly twice hands the Player back the actor it drove, as
   * long as that actor's handle resolved and it sits below slot 2^16.
   */
  method FreeFlyRoundTrip(m: Map, em: EngineMath)
    requires m.Valid() && !m.player.freeFlyMode
    modifies m`actors, m`ais, m`player
    ensures var held := old(m.GetActorByUID(m.player.actorUID));
      held.Some? && held.value < HALF ==> m.GetActor(PlayerCtl) == held && m.player.actorUID == old(m.player.actorUID)
    ensures !m.player.freeFlyMode
    ensures m.Valid() && Evolves(old(m.actors), m.actors)
  {
    ToggleFreeFly(m, em);
    ghost var flying := m.actors;
    ToggleFreeFly(m, em);
    EvolvesTransitive(old(m.actors), flying, m.actors);
  }

  /** The hand's weapon list with the weapon at `index` equipped by the actor. */
  function EquipInHand(a: Actor, h: Hand, index: nat): (r: Actor)
    requires index < |HandWeapons(a, h)|
    ensures HandWeapons(r, h) == HandWeapons(a, h)[index := OnEquipped(HandWeapons(a, h)[index], a.uid)]
    ensures HandWeapons(r, h)[index].ownerUID == a.uid && HandWeapons(r, h)[index].pending == 0
    ensures Persists(a, r) && Steady(a, r)
  {
    WithWeapon(a, h, index, OnEquipped(HandWeapons(a, h)[index], a.uid))
  }

  /** The Player's weapon index for a VR hand. */
  function HandIndex(p: PlayerController, h: Hand): int
  {
    if h == LeftHand then p.leftWeaponIndex else p.rightWeaponIndex
  }

  /**
   * A grip press on a VR hand in Player::Update: the hand's weapon index
   * moves to the next weapon, wrapping to the first, and that weapon is
   * equipped by the possessed actor in slot i. A hand with no weapons
   * would make the source divide by zero; the model leaves everything as
   * it was.
   */
  method Grip(m: Map, i: nat, h: Hand)
    requires m.Valid() && i < |m.actors| && m.actors[i].Some? && h != MainHand
    requires HandIndex(m.player, h) >= 0
    modifies m`actors, m`player
    ensures var a := old(m.actors[i].value); var size := |HandWeapons(a, h)|;
      size == 0 ==> m.actors == old(m.actors) && m.player == old(m.player)
    ensures var a := old(m.actors[i].value); var size := |HandWeapons(a, h)|;
      size > 0 ==>
        var next := NextHandIndex(HandIndex(old(m.player), h), size);
        HandIndex(m.player, h) == next &&
        m.player == (if h == LeftHand then old(m.player).(leftWeaponIndex := next) else old(m.player).(rightWeaponIndex := next)) &&
        m.actors == old(m.actors)[i := Some(EquipInHand(a, h, next))]
    ensures HandIndex(m.player, h) >= 0
    ensures m.Valid() && Evolves(old(m.actors), m.actors)
  {
    EvolvesReflexive(m.actors);
    var a := m.actors[i].value;
    var size := |HandWeapons(a, h)|;
    if size == 0 {
      return;
    }
    var next := NextHandIndex(HandIndex(m.player, h), size);
    if h == LeftHand {
      m.player := m.player.(leftWeaponIndex := next);
    } else {
      m.player := m.player.(rightWeaponIndex := next);
    }
    m.SetActor(i, EquipInHand(a, h, next));
  }
}
