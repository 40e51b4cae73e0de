/**
 * The controllers' own state. Controller::Possess, Unpossess and GetActor,
 * and every callback that reaches an actor, need the map's actor slots and
 * are modelled with the map.
 */
module Controllers {

  import opened ActorUIDs
  import opened Geometry

  /**
   * An AI controller: the handle of the actor it drives and of its current
   * target. Its map pointer is set when Map::SpawnActor creates it and never
   * cleared, so it is not recorded.
   */
  datatype AIController = AIController(actorUID: ActorUID, targetUID: ActorUID)

  /** AI(): drives nothing and has no target yet. */
  const NEW_AI: AIController := AIController(ActorUID.INVALID, ActorUID.INVALID)

  /**
   * The Player: the possessed actor's handle, whether its map pointer is set
   * (`onMap`), the free-fly camera, the score, the last actor it released,
   * and the VR hand weapon indices.
   */
  datatype PlayerController = PlayerController(
    actorUID: ActorUID,
    onMap: bool,
    position: Vec3,
    orientation: EulerAngles,
    freeFlyMode: bool,
    kills: int,
    deaths: int,
    lastPossessedActorUID: ActorUID,
    leftWeaponIndex: int,
    rightWeaponIndex: int)

  /** Player(game, ...): every field at its declared initial value. */
  const NEW_PLAYER: PlayerController :=
    PlayerController(ActorUID.INVALID, false, ZERO3, EulerAngles(0.0, 0.0, 0.0), false, 0, 0,
                     ActorUID.INVALID, 0, 0)

  /**
   * The VR grip: the hand's weapon index moves on by one and wraps to the
   * start of a hand holding `size` weapons.
   */
  function NextHandIndex(index: int, size: int): (r: int)
    requires size > 0
    ensures 0 <= r < size
    ensures 0 <= index < size - 1 ==> r == index + 1
    ensures index == size - 1 ==> r == 0
  {
    (index + 1) % size
  }
}
