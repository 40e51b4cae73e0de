# Doomenstein simulation core in Dafny

Doomenstein is a first-person shooter with two kinds of maps. A tile map is
read from an image, and its actors come from the map definition. The "Gold"
map is a 50 by 50 open field strewn with cliffs, trees and rocks, where waves
of enemy soldiers and tanks arrive one level at a time. This project models
the bookkeeping of that simulation, frame by frame:

- **Actor handles.** An `ActorUID` packs a 16-bit salt and a 16-bit slot index
  into one 32-bit word (module `ActorUIDs`).
- **The actor slot array.** Each map keeps its actors in slots. Actors are
  spawned by appending a slot, deleted by emptying it, and looked up by
  handle. This is modelled by `class Map` in module `Maps`. The class also
  holds the AI controller records, the Player record, the tile grid and its
  solid heat map, and the Gold map's wave state.
- **Actor state.** Health, death, destruction, possession, the three weapon
  lists and the equipped index, and forces and impulses (module `Actors`).
  Refire timers live in module `Weapons`.
- **Controllers.** The Player and the AIs take control of an actor (possess
  it) and release it (unpossess it): `Maps.Map.Possess` and neighbours.
  Module `ControllerEvents` holds the damage and kill notifications. Module
  `AIs` holds one step of the AI's decisions. Module `PlayerControls` holds
  the free-fly camera toggle and the VR grip buttons.
- **Weapons.** `Weapon::Fire` has a refire gate, rays, projectiles, melee
  sweeps and a drain loop (module `Firing`).
- **Collisions and the frame.** Module `Collisions` holds actor against
  actor, against tiles, against the floor and ceiling, and against the Gold
  map's static actors. Module `Updates` holds the per-frame update of every
  actor, including the slots appended during the loop.
- **The Gold map's waves.** Spawning waves, counting down the remaining
  enemies, going up a level and starting a wave (module `GoldMaps`).

Objects the source changes in place are modelled as state. Each actor slot
holds a record, `seq<Option<Actor>>` in the `Map` class. Raw pointers become
slot indices and controller references (`CtlRef`). An operation on an actor
or a controller becomes a `Map` method that takes the slot, specified by a
pure function on the actor record. Module `ActorSlots` states what a frame
may do to the slots and proves that it composes (`Evolves`): handles and
definitions are kept, death and destruction are never undone, and slots are
never refilled.

Nothing is ever computed in floating point. Engine geometry (ray-cylinder
tests, disc pushes, sector tests, heat-map raycasts, normalisation) is a
record of functions passed in as a parameter (`Geometry.EngineMath`). Random
rolls, the clock and input are parameters too.

## Model

| member | source | states |
|---|---|---|
| ActorUIDs.Mint | Code/Game/ActorUID.cpp:6-9 | The handle built from (salt, index) has GetIndex = index mod 2^16 and salt bits = salt mod 2^16 |
| ActorUIDs.EqualityIsDataEquality | Code/Game/ActorUID.cpp:21-29 | `==` holds exactly when the packed words agree, and `!=` is its negation |
| ActorUIDs.MintInjective | Code/Game/ActorUID.cpp:21-24 | Two minted handles are equal iff salt and index agree modulo 2^16; the same index with salts differing mod 2^16 compares unequal |
| ActorUIDs.SaltAndIndexDetermineHandle | Code/Game/ActorUID.cpp:6-9 | Two handles with the same salt bits and index are the same handle |
| ActorUIDs.SaltWraps | Code/Game/ActorUID.cpp:8 | Salt bits above the 16th are discarded: ActorUID(s, i) == ActorUID(s + 2^16, i) |
| ActorUIDs.DefaultIsInvalid | Code/Game/ActorUID.hpp:18-21 | The default handle equals INVALID, neither is valid, and INVALID's index is 0xFFFF |
| ActorUIDs.SentinelCollision | Code/Game/ActorUID.hpp:21 | A minted handle equals INVALID iff its salt and index are both 0xFFFF mod 2^16 |
| ActorDefinitions.CString | Code/Game/ActorDefinition.cpp:14-22 | The string strcmp sees is the longest NUL-free prefix, ending at the first NUL |
| ActorDefinitions.CStringOfNulFree | Code/Game/ActorDefinition.cpp:14-22 | For a string without NUL, strcmp compares the whole string |
| ActorDefinitions.GetFactionFromString | Code/Game/ActorDefinition.cpp:12-28 | "Marine", "Demon" and "SpawnPoint" map to their factions, each iff the name matches; anything else gives INVALID; NEUTRAL is never produced |
| ActorDefinitions.FactionNamesAreCaseSensitive | Code/Game/ActorDefinition.cpp:14-22 | Matching is exact: "marine", "DEMON" and "Marines" give INVALID |
| ActorDefinitions.GetBillboardTypeFromString | Code/Game/ActorDefinition.cpp:30-49 | Each of the four billboard names maps to its type iff it matches, and anything else gives NONE |
| ActorDefinitions.GetAnimationGroupByName | Code/Game/ActorDefinition.cpp:264-275 | The result is a group of the list; it is the first one whose name matches, and the first group when none matches (non-empty list required) |
| ActorDefinitions.FirstMatching | Code/Game/ActorDefinition.cpp:266-272 | The search loop stops at the first matching index, with no match before it |
| ActorDefinitions.LookupActorDefinition | Code/Game/Actor.cpp:37 | `s_actorDefs[name]` is the stored definition, or a default one for a missing name |
| WeaponDefinitions.LookupWeaponDefinition | Code/Game/Gold/GoldMap.cpp:506 | `s_weaponDefs[name]` is the stored definition, or a default one for a missing name |
| Weapons.NewWeapon | Code/Game/Weapon.cpp:15-21 | A new weapon has the definition, no map, no owner and no elapsed refire period |
| Weapons.OnEquipped | Code/Game/Weapon.cpp:60-68 | The weapon takes the owner's map and UID, and its refire timer restarts with nothing elapsed |
| Weapons.DecrementIfElapsed | Code/Game/Weapon.cpp:72-75 | The gate reports true iff a refire period has elapsed, and then consumes exactly one; otherwise the weapon is unchanged |
| Weapons.DrainElapsed | Code/Game/Weapon.cpp:252 | The drain loop leaves no elapsed period and changes nothing else |
| Weapons.GetRange | Code/Game/Weapon.cpp:282-295 | FLT_MAX for a projectile weapon; otherwise the ray range for a ray weapon; otherwise the melee range |
| Actors.Die | Code/Game/Actor.cpp:312-319 | The actor is dead afterwards; the first call starts the corpse lifetime; a dead actor is unchanged |
| Actors.DieIdempotent | Code/Game/Actor.cpp:312-319 | Die twice is Die once, and dying keeps the actor's identity |
| Actors.TakeDamage | Code/Game/Actor.cpp:280-310 | A dead actor is unchanged. A live one loses exactly `damage` health and is dead afterwards iff its health is at most 0; nothing else changes |
| Actors.DeathIsFinal | Code/Game/Actor.cpp:280-291 | After a lethal blow, further damage changes nothing |
| Actors.OnPossessed | Code/Game/Actor.cpp:452-465 | The controller becomes the actor's; a non-player controller is also remembered as the AI; the Player in VR equips the first weapon of each hand; nothing else changes |
| Actors.EquipFirst | Code/Game/Actor.cpp:459-464 | The first weapon of a non-empty hand is equipped; an empty hand is left alone |
| Actors.OnUnpossessed | Code/Game/Actor.cpp:467-477 | Control falls back to the remembered AI if there is one, else to none; nothing else changes |
| Actors.UnpossessRestoresAI | Code/Game/Actor.cpp:452-477 | Possession by the Player then release hands the actor back to its AI; with an AI controller, that AI stays in control |
| Actors.EquipWeapon | Code/Game/Actor.cpp:496-505 | An index outside the weapon list changes nothing; otherwise it becomes the equipped index and that weapon is equipped by this actor |
| Actors.EquipNextWeapon | Code/Game/Actor.cpp:507-510 | The equipped index stays valid |
| Actors.EquipPreviousWeapon | Code/Game/Actor.cpp:512-515 | The equipped index stays valid |
| Actors.WeaponCyclingDoesNotWrap | Code/Game/Actor.cpp:496-515 | Next at the last weapon and Previous at the first change nothing; in between they move the index by one |
| Actors.AddForce | Code/Game/Actor.cpp:389-392 | The force is added to the acceleration; nothing else changes |
| Actors.AddImpulse | Code/Game/Actor.cpp:394-397 | The impulse is added to the velocity; nothing else changes |
| Actors.MoveInDirection | Code/Game/Actor.cpp:479-482 | A force of speed times drag is added to the acceleration; nothing else changes |
| Actors.TurnInDirection | Code/Game/Actor.cpp:484-489 | Only the yaw changes, to the engine's turn toward the goal with a budget of the rate times the frame's duration; where the engine turn keeps to its budget (`TurnsWithin`), the yaw lands on the goal or moves by at most that budget |
| Actors.UpdatePhysics | Code/Game/Actor.cpp:150-166 | The acceleration is cleared, the actor is grounded once at or below the floor, and only position, velocity, acceleration and the grounded flag change |
| Actors.ClampPitch | Code/Game/Actor.cpp:127-135 | The pitch lies in [-85, 45] on the ground and [-85, 85] in the air; nothing else changes |
| Actors.NewActor | Code/Game/Actor.cpp:30-72 | A new actor has the handle, the looked-up definition, its health and size, and is dead iff the definition dies on spawn. It has one weapon per defined weapon in each list, the first equipped by the actor, all idle, and no controllers or owner |
| Controllers.NextHandIndex | Code/Game/Player.cpp:388-392 | The grip index moves on by one and wraps to 0 after the last weapon; it stays in [0, size) |
| Tiles.NewTile | Code/Game/Tile.cpp:5-15 | The tile stores exactly the given coordinates and the named definition (the name must be in the table) |
| Tiles.GetBounds | Code/Game/Tile.cpp:17-25 | The unit square with mins (x, y) and maxs (x+1, y+1) |
| Tiles.TileIndexInGrid | Code/Game/Map.cpp:423-429 | Every in-bounds tile's index x + y*width lies inside the grid, and distinct tiles have distinct indices |
| Tiles.TileIndicesInGrid | Code/Game/Map.cpp:423-429 | The same, for all in-bounds tiles at once |
| Tiles.EmptyGridHasNoTile | Code/Game/Map.cpp:423-426 | No tile is in bounds on a grid with no cells |
| Tiles.NeighbourOffsets | Code/Game/Map.cpp:408-416 | The eight neighbour tests come in the source's order |
| Tiles.NeighbourOffsetsAreTheRing | Code/Game/Map.cpp:408-416 | The eight offsets are exactly the other cells of the 3x3 block, each once |
| Tiles.TileCoordsOf | Code/Game/Map.cpp:406 | The tile under a point contains it: its coordinates are the point's rounded-down coordinates |
| Tiles.SolidHeatValues | Code/Game/Map.cpp:123-140 | One heat value per tile: 0 iff the tile is solid, 1 iff it is not |
| Geometry.Clamp | Code/Game/Actor.cpp:127-135 | GetClamped lands in [lo, hi] and leaves a value already inside unchanged |
| Geometry.RoundDown | Code/Game/Map.cpp:406 | RoundDownToInt gives the integer at or below the value, less than one below it |
| Geometry.FromRayHit | Code/Game/GameCommon.cpp:7-14 | The converted raycast result copies the hit and names no actor |
| ActorSlots.EvolvesPending | Code/Game/Map.cpp:196-206 | No step of a frame adds elapsed refire periods to the slots |
| ActorSlots.EvolvesPendingStrict | Code/Game/Map.cpp:196-206 | A step that consumes a refire period of an actor that stays lowers the total |
| ActorSlots.EvolvesExpiring | Code/Game/Map.cpp:196-206 | No step of a frame makes a corpse lifetime run out |
| Maps.NearestActor | Code/Game/Map.cpp:269-294 | The slot settled on can be hit, and no hittable slot is nearer, nor equally near and earlier; none means no slot can be hit |
| Maps.ActorRaycast | Code/Game/Map.cpp:269-294 | The result impacts iff some live, non-excluded actor is hit within the distance, names the nearest one, and is the unhit result otherwise |
| Maps.ClipToFloor | Code/Game/Map.cpp:296-346 | A downward ray meets the floor when it lies nearer than the hit so far; the distance never grows; an upward ray is unchanged |
| Maps.ClipToCeiling | Code/Game/Map.cpp:296-346 | An upward ray may stop at the ceiling; the distance never grows; a downward ray is unchanged |
| Maps.TileWallRaycast | Code/Game/Map.cpp:296-346 | A heat-map hit stays a hit, no actor is named, and the impact lies along the ray at the impact distance |
| Maps.NearestStatic | Code/Game/Gold/GoldMap.cpp:308-345 | The static actor settled on is hit, and none is nearer; none means no static actor is hit |
| Maps.StaticRaycast | Code/Game/Gold/GoldMap.cpp:308-345 | Impacts iff some static actor is hit within the distance, at a distance no greater than any static hit |
| Maps.GoldWallRaycast | Code/Game/Gold/GoldMap.cpp:308-360 | The nearest of the static hits and, for a downward ray only, the floor; the distance never exceeds the ray's; no ceiling |
| Maps.NearerHit | Code/Game/Map.cpp:239-267 | The actor hit only when strictly nearer than the wall hit (ties go to the wall), whichever alone impacted, else a default no-impact result |
| Maps.Map.GetActorByUID | Code/Game/Map.cpp:526-537 | A handle resolves iff it is not INVALID and the slot its index names holds an actor with exactly this handle; the result is that index |
| Maps.Map.GetActor | Code/Game/Controller.cpp:19-27 | None while the controller has no map, else what its handle resolves to |
| Maps.Map.ResolvesToItsSlot | Code/Game/Map.cpp:526-537 | An actor below slot 2^16 whose handle is not INVALID is found by its own handle |
| Maps.Map.NeverResolvesToAnotherHandle | Code/Game/Map.cpp:526-537 | A handle never resolves to an empty slot, nor to a slot holding any other handle |
| Maps.Map.SlotsBeyondIndexRangeUnreachable | Code/Game/Map.cpp:498-503 | An actor at slot 2^16 or beyond is never found by its own handle |
| Maps.Map.WrappedHandleFindsAnotherActor | Code/Game/Map.cpp:526-537 | Once the index has wrapped and the salts agree mod 2^16, the handle of the actor in slot j finds slot j - 2^16 instead |
| Maps.Map.FromDefinition | Code/Game/Map.cpp:29-57 | The tile grid follows the image, the heat map follows the solid tiles, and the actors, spawn points, salt and AI controllers are SpawnAll of the entries from an empty roster: one actor per DEMON entry and one spawn point per SPAWNPOINT entry |
| Maps.Map.Gold | Code/Game/Gold/GoldMap.cpp:26-63 | A 50 by 50 field with one spawn point at (10, 10, 0), no actors, no tile grid, level 0, no enemies and out of combat |
| Maps.Map.ConstructMapFromImage | Code/Game/Map.cpp:59-92 | Every in-bounds cell gets a tile of the image's type at its own coordinates |
| Maps.Map.SpawnFromDefinition | Code/Game/Map.cpp:44-56 | The roster becomes SpawnAll of the entries: one occupied slot appended per DEMON entry and one spawn point per SPAWNPOINT entry, and the j-th appended slot holds the actor built from the j-th DEMON entry |
| Maps.Map.SpawnEntry | Code/Game/Map.cpp:46-55 | The roster becomes SpawnOne of the entry: a DEMON entry appends the actor SpawnActor builds, a SPAWNPOINT entry adds a spawn point, and any other entry does nothing |
| Maps.Map.SetTileType | Code/Game/Map.cpp:233-237 | Only the tile at index x + y*width changes, to a tile of the named type at those coordinates |
| Maps.Map.CreateTileHeatMaps | Code/Game/Map.cpp:123-140 | The solid heat map is 0 on solid tiles and 1 elsewhere |
| Maps.Map.SpawnActor | Code/Game/Map.cpp:498-514 | The slot appended holds exactly Spawned: the actor built with ActorUID(salt, old size), possessed by the next AI controller iff its definition enables AI; the salt goes up by exactly 1, and that controller is recorded iff the definition enables AI |
| Maps.Map.CreateSpawnPoint | Code/Game/Map.cpp:516-524 | A spawn point with the next handle is kept apart from the actors; the salt goes up by 1 |
| Maps.Map.DeleteDestroyedActors | Code/Game/Map.cpp:474-485 | Exactly the slots holding destroyed actors become empty; the length and every other slot are unchanged |
| Maps.Map.Possess | Code/Game/Controller.cpp:7-11 | The controller takes the actor's handle and the actor takes the controller, so GetActor finds the actor when its handle can resolve |
| Maps.Map.Unpossess | Code/Game/Controller.cpp:13-17 | The handle becomes INVALID, so GetActor finds nothing, and the actor falls back to its AI or to none |
| Maps.Map.PlayerPossess | Code/Game/Player.cpp:590-595 | Controller::Possess, and the Player is on the actor's map |
| Maps.Map.PlayerUnpossess | Code/Game/Player.cpp:600-604 | The actor's handle is recorded as the last possessed, then Controller::Unpossess |
| Maps.Map.SpawnPlayer | Code/Game/Map.cpp:487-496 | A "Soldier" appended at the rolled spawn point and possessed by the Player |
| Maps.Map.RaycastVsActors | Code/Game/Map.cpp:269-294 | The loop computes ActorRaycast over every slot |
| Maps.Map.RaycastVsWalls | Code/Game/Gold/GoldMap.cpp:308-360 | The loop computes the tile map's or the Gold map's wall raycast, by the map's type |
| Maps.Map.RaycastVsAll | Code/Game/Map.cpp:239-267 | The result is NearerHit of the actor raycast and the wall raycast |
| Maps.Map.CanSee | Code/Game/Map.cpp:556-562 | The sector and line-of-sight tests for one candidate |
| Maps.Map.GetClosestVisibleEnemy | Code/Game/Map.cpp:539-573 | The first live enemy (other faction, not INVALID) that is seen, at the strictly smallest distance; none when no enemy is seen |
| Maps.CountFactionStep | Code/Game/Map.cpp:44-56 | The faction count of the spawn entries grows by one entry at a time |
| Maps.Spawned | Code/Game/Map.cpp:498-514 | The spawned actor has the given handle, the looked-up definition, the entry's position and orientation, and is controlled by AI controller k iff the definition enables AI |
| Maps.SpawnOne | Code/Game/Map.cpp:46-55 | A DEMON entry adds exactly one slot, a SPAWNPOINT entry exactly one spawn point, any other nothing; the earlier slots and spawn points are kept |
| Maps.Demons | Code/Game/Map.cpp:44-56 | The DEMON entries: as many as CountFaction counts, each a DEMON |
| Maps.SpawnAllCounts | Code/Game/Map.cpp:44-56 | The spawn loop keeps the earlier slots and appends one occupied slot per DEMON entry and one spawn point per SPAWNPOINT entry |
| Maps.SpawnAllDemons | Code/Game/Map.cpp:44-56 | The j-th appended slot holds the actor built from the j-th DEMON entry, with a handle naming that slot |
| Maps.SpawnAllFacts | Code/Game/Map.cpp:44-56 | The counts of SpawnAllCounts and, slot by slot, the DEMON entries of SpawnAllDemons |
| Maps.SpawnedByIndex | Code/Game/Map.cpp:498-514 | A spawned actor is determined by its entry, its own handle and its own AI controller index |
| Collisions.ExclusionIsOwnershipOrBothOwned | Code/Game/Map.cpp:371-384 | The three exclusion rules amount to "one owns the other, or both have owners" |
| Collisions.ExclusionIsSymmetric | Code/Game/Map.cpp:371-384 | Exclusion does not depend on the order of the pair |
| Collisions.MovedTo | Code/Game/Actor.cpp:419-420 | Only the XY position changes; the height stays |
| Collisions.OnCollideWithNothing | Code/Game/Actor.cpp:399-401 | OnCollide with no other actor moves nothing; only the die-on-collide rule applies |
| Collisions.PushedAndDamaged | Code/Game/Actor.cpp:403-424 | The other actor is pushed and, when the collider deals damage, takes the rolled damage |
| Collisions.StruckActor | Code/Game/Actor.cpp:403-431 | The other is pushed, damaged when the collider deals damage, then shoved forward |
| Collisions.UpdateTwiceEvolves | Code/Game/Map.cpp:367-389 | Updating both actors of a pair is a step of the frame |
| Collisions.NotifyDamaged | Code/Game/Actor.cpp:425-429 | No actor changes. When the owner resolves and the struck actor has a controller, the controllers become Notified with the owner as attacker (an AI retargets, the Player as PlayerHeard); otherwise no controller changes |
| Collisions.CollideWithLiveActor | Code/Game/Actor.cpp:401-432 | Both actors are pushed apart, the other takes damage and is shoved, and the other slots are unchanged; the controllers become Notified by the other's controller exactly when the actor deals damage, its owner resolves and the other has a controller, and are unchanged otherwise |
| Collisions.PushApartAndDamage | Code/Game/Actor.cpp:403-430 | The two slots become the pushed actor and the pushed and damaged other, and nothing else; the controllers become Notified exactly when damage is dealt, the owner resolves and the other has a controller |
| Collisions.OnCollide | Code/Game/Actor.cpp:399-438 | A null or dead other moves nothing; in every case an actor that dies on collision dies at the end |
| Collisions.DieOnCollide | Code/Game/Actor.cpp:434-437 | Only the actor's slot changes: it dies iff its definition dies on collision, and is otherwise kept as it was |
| Collisions.Collided | Code/Game/Actor.cpp:399-438 | One side's OnCollide on the slot array: only the two slots change, a dead other is untouched, and the collider is dead afterwards iff it was or dies on collision |
| Collisions.CollidePair | Code/Game/Map.cpp:367-389 | Both sides collide only when the cylinders overlap and the pair is not excluded; otherwise nothing changes; the slots become PairOutcome of the old slots |
| Collisions.PairOutcome | Code/Game/Map.cpp:367-389 | The pair's effect on the slot array touches no slot but the two |
| Collisions.FoldPairsConcat | Code/Game/Map.cpp:348-365 | Colliding one list of pairs and then another is colliding their concatenation |
| Collisions.PairsFoldToRows | Code/Game/Map.cpp:348-365 | Colliding the pairs PairsUpTo lists, one after another, leaves the slots RowsUpTo describes row by row |
| Collisions.FoldKeepsSlot | Code/Game/Map.cpp:359-362 | Pairs that do not name a slot leave that slot as it was |
| Collisions.CollideRow | Code/Game/Map.cpp:357-363 | The inner loop pairs slot i with each later slot whose actor is alive when reached, in order, whether or not slot i is still alive; the row is RowVisits of the slots the row began with, and the slots become the fold of its pairs |
| Collisions.PairStep | Code/Game/Map.cpp:359-362 | A tested pair keeps the row loop's invariants |
| Collisions.SkipStep | Code/Game/Map.cpp:357-363 | A skipped slot keeps the row loop's invariants |
| Collisions.RowPairs | Code/Game/Map.cpp:357-363 | The pairs of a row, in order |
| Collisions.RowVisitsExact | Code/Game/Map.cpp:357-363 | A finished row is fixed by the slots it began with: an increasing row of later slots, each alive when reached, that leaves no later live actor unpaired, is RowVisits |
| Collisions.ScanDecided | Code/Game/Map.cpp:357-363 | The scan of slots i+1 to j-1 lists exactly the slots of a row below j when its test holds of each listed slot as reached and of no slot skipped between them |
| Collisions.SkippedNotAlive | Code/Game/Map.cpp:359-362 | A slot the row skipped held no live actor when reached, since the later pairs do not touch it |
| Collisions.FoldSuffixKeeps | Code/Game/Map.cpp:359-362 | Pairs after the k-th that do not name slot b leave it as the first k pairs left it |
| Collisions.VisitRow | Code/Game/Map.cpp:350-363 | One outer iteration: a dead first actor skips the row; a live one collides the pairs of RowVisits; RowsUpTo and PairsUpTo advance by one row |
| Collisions.CollideActors | Code/Game/Map.cpp:348-365 | ActorsCollided: the slots end as RowsUpTo over every row and the pairs tested are exactly PairsUpTo, the rows' pairs in loop order, each row run only when its first actor is alive as it begins and each pair reached only when its second actor is alive then; each pair was alive at the start and every pair alive at the end was tested |
| Collisions.RowFolds | Code/Game/Map.cpp:348-365 | A row whose first actor is alive when it begins extends the fold and both aliveness facts |
| Collisions.RowStep | Code/Game/Map.cpp:348-365 | One row keeps the outer loop's invariants |
| Collisions.KeepsSlotsTransitive | Code/Game/Map.cpp:348-365 | No collision step empties a slot, over any number of steps |
| Collisions.AliveNowAliveBefore | Code/Game/Map.cpp:348-365 | An actor alive now was alive at the start of the frame |
| Collisions.DamageNotificationAsWritten | Code/Game/Actor.cpp:422-430 | As written: the struck actor's controller is called with no null test |
| Collisions.DamageNotification | Code/Game/Actor.cpp:422-430 | As intended: a struck actor with no controller is not told |
| Collisions.NotificationsAgreeWithAController | Code/Game/Actor.cpp:422-430 | The two agree whenever the struck actor has a controller |
| Collisions.ReleasedActorWithoutAIIsANullDereference | Code/Game/Actor.cpp:422-430 | A released actor without an AI, struck by a damaging projectile with a live owner, reaches the null dereference |
| Collisions.TileAt | Code/Game/Map.cpp:423-429 | The tile at grid coordinates, none outside the grid |
| Collisions.CollideWithTile | Code/Game/Map.cpp:421-443 | Off the grid or on a non-solid tile nothing happens; otherwise the actor is pushed out in XY and, if pushed, collides with nothing |
| Collisions.ApplyFloorOutcome | Code/Game/Map.cpp:445-457 | A floor or ceiling clamp sets only the height; falling off only kills |
| Collisions.NeighboursKeepHeightAndShape | Code/Game/Map.cpp:404-419 | The neighbour tests only move the actor in XY and may kill it; on an empty grid nothing happens |
| Collisions.TileMapFloorOutcome | Code/Game/Map.cpp:445-457 | Below the floor: lifted to 0. Through the ceiling: lowered to touch 1. Either way, a collision with nothing follows |
| Collisions.GoldFloorOutcome | Code/Game/Gold/GoldMap.cpp:394-408 | Below the floor over the field: lifted to 0. Outside the field: it dies. There is no ceiling |
| Collisions.GoldFloorKillsOnlyOffTheField | Code/Game/Gold/GoldMap.cpp:394-408 | The Gold floor never clamps at a ceiling and only kills off the field |
| Collisions.FloorAndCeiling | Code/Game/Map.cpp:418 | The floor-and-ceiling rule of the map's dynamic type |
| Collisions.CollideActorWithMap | Code/Game/Map.cpp:404-419 | The eight neighbour tests in order, then the floor and ceiling |
| Collisions.MapPassSlot | Code/Game/Map.cpp:391-402 | A live actor that is not static collides with the map; other slots are unchanged |
| Collisions.CollideActorsWithMap | Code/Game/Map.cpp:391-402 | MapPassed: every live non-static actor collides with the map (MapPassSlot); dead, static and empty slots are left alone |
| Collisions.GoldMapHasOnlyTheFloor | Code/Game/Gold/GoldMap.cpp:394-408 | On the Gold map the tile tests never fire; only the floor applies |
| Collisions.OnCollideWithStatic | Code/Game/Actor.cpp:440-450 | The actor is pushed out of the static disc at the same height, then the die-on-collide rule applies |
| Collisions.StaticsKeepHeightAndShape | Code/Game/Gold/GoldMap.cpp:367-392 | The static actors only move an actor in XY and may kill it |
| Collisions.NoOverlapNoChange | Code/Game/Gold/GoldMap.cpp:377-390 | An actor overlapping no static actor is untouched |
| Collisions.CollideActorWithStatics | Code/Game/Gold/GoldMap.cpp:377-390 | The actor meets each static actor in turn |
| Collisions.StaticsPassSlot | Code/Game/Gold/GoldMap.cpp:367-392 | Any actor in the slot meets every static actor; other slots are unchanged |
| Collisions.CollideActorsWithStaticActors | Code/Game/Gold/GoldMap.cpp:367-392 | StaticsPassed: every occupied slot, dead or alive, is tested against each static actor; empty slots stay empty |
| ControllerEvents.KillSlot | Code/Game/Actor.cpp:312-319 | Die on the actor in one slot; nothing else changes |
| ControllerEvents.PlayerKilled | Code/Game/Player.cpp:581-588 | A kill is counted iff the victim is player-controlled; the victim dies either way |
| ControllerEvents.PlayerKilledBy | Code/Game/Player.cpp:569-579 | One more death, and the possessed actor dies if its handle resolves |
| ControllerEvents.Killed | Code/Game/AI.cpp:75-78 | AI::Killed changes nothing; Player::Killed is above |
| ControllerEvents.KilledBy | Code/Game/AI.cpp:70-73 | AI::KilledBy changes nothing; Player::KilledBy is above |
| ControllerEvents.PlayerDamagedBy | Code/Game/Player.cpp:546-567 | Nothing without an attacker, an unresolved possessed actor or a live one. A dead one records a death and tells the attacker's controller of the kill; the Player ends exactly as PlayerHeard says and no actor changes |
| ControllerEvents.DamagedBy | Code/Game/AI.cpp:65-68 | AI::DamagedBy makes the attacker its target unconditionally and changes nothing else; Player::DamagedBy leaves the Player as PlayerHeard says; in both cases the controllers end as Notified says |
| ControllerEvents.PlayerHeard | Code/Game/Player.cpp:546-567 | Only the deaths and kills can change. One more death iff there is an attacker and the possessed actor resolves and is dead; a kill is counted only as one more, and only when the attacker is Player-controlled |
| ControllerEvents.Notified | Code/Game/AI.cpp:65-68 | Only the told controller changes: an AI's target becomes the attacker's handle and every other AI and the Player are kept; the Player becomes PlayerHeard and the AIs are kept; with no controller nothing changes |
| Firing.WithWeapon | Code/Game/Weapon.cpp:70-272 | Only weapon w of hand h changes |
| Firing.ShotTarget | Code/Game/Weapon.cpp:161-190 | A ray shot damages the actor hit, looked up again by handle; none for walls, misses or a handle that no longer resolves |
| Firing.ShotStrikesTheActorHit | Code/Game/Weapon.cpp:161-190 | Below 2^16 slots a ray shot damages exactly the actor hit, and never its owner |
| Firing.NotifyVictim | Code/Game/Weapon.cpp:186-189 | No actor changes; the controllers become Notified by the victim's controller with the owner as attacker: an AI retargets, the Player as PlayerHeard, and without a controller nothing changes |
| Firing.Strike | Code/Game/Weapon.cpp:184-189 | The victim's slot takes the blow and nothing else; the controllers become Notified by the blow's controller with the owner as attacker |
| Firing.Shot | Code/Game/Weapon.cpp:161-190 | One ray on the slot array: the actor the ray resolves to takes the damage and every other slot is unchanged |
| Firing.Volley | Code/Game/Weapon.cpp:115-203 | The rays one after another, each against the actors the ones before left; only damage changes: every slot keeps its handle, definition, position and owner |
| Firing.RayShot | Code/Game/Weapon.cpp:161-190 | The actor ShotTarget names takes the rolled damage with no impulse and the controllers become Notified by its controller; a miss changes nothing; the slots become Shot of the old slots |
| Firing.FireRays | Code/Game/Weapon.cpp:115-203 | The slots become the Volley of rayCount rays (none when rayCount is not positive) |
| Firing.ProjectileActor | Code/Game/Weapon.cpp:212-219 | The spawned projectile: the weapon's projectile definition at the fire position, the owner's orientation pitched down 10 degrees, stamped with the owner UID, with velocity the fire direction times projectileSpeed, under the minted handle |
| Firing.LaunchedIsProjectile | Code/Game/Weapon.cpp:205-220 | Each launched slot holds a projectile of the weapon's owner |
| Firing.NextProjectile | Code/Game/Weapon.cpp:205-220 | One loop iteration: exactly one slot appended, holding the p-th launched projectile, with the earlier slots kept and the salt advanced by one |
| Firing.Shoot | Code/Game/Weapon.cpp:85-203 | The recoil, then the Volley of rayCount rays aimed from the recoiled owner; the aim returned is that aim |
| Firing.SpawnProjectile | Code/Game/Weapon.cpp:211-219 | One slot appended holding ProjectileActor: spawned at the fire position, pitched 10 degrees below the owner, stamped with the owner UID, pushed with the direction times projectileSpeed, under the handle minted from the salt and the slot; an AI is added iff the definition enables one |
| Firing.FireProjectiles | Code/Game/Weapon.cpp:205-220 | LaunchedFrom: exactly projectileCount slots appended, the p-th holding the projectile at the fire position, pitched 10 degrees below the owner, moving along the straight aim or the p-th rolled cone direction times projectileSpeed, under the p-th minted handle |
| Firing.MeleeBlow | Code/Game/Weapon.cpp:240-243 | The rolled damage, then a push away from the attacker |
| Firing.MeleeStrike | Code/Game/Weapon.cpp:228-248 | A melee target takes a blow and the controllers become Notified by its controller with the owner as attacker; for any other slot nothing changes |
| Firing.MeleeSweep | Code/Game/Weapon.cpp:224-249 | Each target takes a blow; the owner's faction, the INVALID faction and empty slots are untouched; the slots become Sweep of the old slots |
| Firing.Sweep | Code/Game/Weapon.cpp:224-249 | Every target of the owner takes its blow with its own roll, every other slot and the owner are unchanged, and no actor moves |
| Firing.Melee | Code/Game/Weapon.cpp:222-250 | The sweeps one after another: the owner and every non-target are untouched, and definitions, positions and owners are kept |
| Firing.FireMelee | Code/Game/Weapon.cpp:222-250 | The slots become the Melee of meleeCount sweeps, never touching the owner's faction or the INVALID faction |
| Firing.Recoiled | Code/Game/Weapon.cpp:85-91 | Only the owner's pitch changes, by the recoil angle, and only for the Player without a VR headset |
| Firing.Recoil | Code/Game/Weapon.cpp:85-91 | The Player's view pitches up only without a VR headset; the slots become Recoiled of the old slots |
| Firing.ShootAndLaunch | Code/Game/Weapon.cpp:85-220 | The recoil, then the Volley aimed from the recoiled owner, then LaunchedFrom: the projectiles appended after the shot slots with positions, orientations, velocities and handles fixed by that aim |
| Firing.FireResolved | Code/Game/Weapon.cpp:85-250 | The recoil, the Volley of rays, the projectiles appended as LaunchedFrom states, then the Melee of the sweeps on the result |
| Firing.ConsumePeriod | Code/Game/Weapon.cpp:72-75 | One elapsed refire period is consumed iff there is one |
| Firing.Discharge | Code/Game/Weapon.cpp:77-252 | Fires iff the owner handle resolves, and otherwise changes nothing. A fired shot is Discharged: the recoil, the Volley of rayCount rays aimed from the recoiled owner, the projectiles appended as LaunchedFrom states (position, pitch, velocity, owner and handle), the Melee of the sweeps on the result, then no elapsed period left |
| Firing.DischargedIntro | Code/Game/Weapon.cpp:77-252 | The recoil, rays, projectiles and sweeps that FireResolved states, followed by the drain, are a Discharged shot, which leaves the weapon with no elapsed period and exactly projectileCount new slots, each the launched projectile LaunchedFrom fixes |
| Firing.DrainHeld | Code/Game/Weapon.cpp:252 | Only the weapon's elapsed-period count changes, to zero |
| Firing.Fire | Code/Game/Weapon.cpp:70-272 | Fires iff a refire period has elapsed and the owner resolves. No elapsed period: nothing changes. An elapsed period but no owner: exactly one period is consumed. Firing: FiredFrom, one period consumed and then the Discharged shot (rays, projectiles, sweeps, drain), so one call fires at most once |
| Firing.Attack | Code/Game/Actor.cpp:517-528 | A dead or unarmed actor does nothing. Otherwise the equipped weapon fires iff it has an elapsed period and its owner resolves; with no elapsed period nothing changes; with one but no owner exactly that period is consumed; a fired shot is FiredFrom the old slots (rays, projectiles, sweeps, drain) |
| AIs.ChaseSpeed | Code/Game/AI.cpp:42-47 | Walk speed iff the squared horizontal distance is below 4, run speed otherwise |
| AIs.EquippedRangeAsWritten | Code/Game/AI.cpp:49 | As written: the range read of the equipped weapon is outside the list when no weapon is equipped |
| AIs.UnarmedRangeReadIsOutOfBounds | Code/Game/AI.cpp:49 | An unarmed AI actor engaging a target reads outside its weapon list |
| AIs.RangeGatesAgree | Code/Game/AI.cpp:49 | The corrected range gate agrees with the written one wherever that is defined, and only lets armed actors through |
| AIs.AttackerIsArmed | Code/Game/AI.cpp:49-55 | An AI that decides to attack has a weapon equipped |
| AIs.Advance | Code/Game/AI.cpp:57-60 | The chase step pushes ahead at the chase speed |
| AIs.Face | Code/Game/AI.cpp:61 | The turn toward the target at the turn speed |
| AIs.AcquireTarget | Code/Game/AI.cpp:16-24 | A held target is kept, even out of sight; otherwise the closest visible enemy is taken, and the old handle is kept when there is none |
| AIs.Engage | Code/Game/AI.cpp:42-61 | Attacks iff the range, sight and angle gates all hold; otherwise only this actor changes: pushed ahead at the chase speed, then turned toward the target |
| AIs.AttackAndTurn | Code/Game/AI.cpp:53-61 | The attack keeps the map valid, evolves the slots, empties none, and spawns only by spending pending shots |
| AIs.Pursue | Code/Game/AI.cpp:16-61 | Engages only a target that resolves to a live actor; a dead target means no attack, move or turn |
| AIs.UpdateAI | Code/Game/AI.cpp:7-63 | Nothing unless the actor resolves; then acquire, then engage only a live resolved target |
| Updates.Step | Code/Game/Actor.cpp:127-135 | One physics step, then the pitch clamp |
| Updates.Destroyed | Code/Game/Actor.cpp:86-88 | The corpse is marked destroyed; nothing else changes |
| Updates.Expire | Code/Game/Actor.cpp:86-94 | Nothing unless the lifetime has run out; then the actor is destroyed and nothing else in the old slots changes; one slot is appended iff the actor is the Player's marine and a spawn point exists, holding a Player-controlled Soldier at the rolled spawn point |
| Updates.UpdateActor | Code/Game/Actor.cpp:74-148 | UpdateStep from the old slots through the AI's result: a destroyed actor changes nothing; otherwise the AI step (nothing without an AI), then the lifetime check and the physics step of a live actor, the respawned Player being the only slot added |
| Updates.Think | Code/Game/Actor.cpp:81-84 | Only an actor with an AI controller runs its AI |
| Updates.Live | Code/Game/Actor.cpp:86-148 | LiveStep: the actor is destroyed if its lifetime ran out, then steps iff it is alive; every other old slot is unchanged and a slot is added exactly for the respawn |
| Updates.ExpiringSplit | Code/Game/Map.cpp:196-206 | The count of expiring slots splits at the current slot |
| Updates.UpdateActors | Code/Game/Map.cpp:196-206 | A log from the old slots to the new: each occupied slot, appended ones included, is visited once in increasing order and its visit is one UpdateStep; the loop ends |
| Updates.UpdateMap | Code/Game/Map.cpp:208-215 | The update is Logged from the old slots to `updated`; the actor pass is ActorsCollided from there to `collided`, the map pass MapPassed from there to `placed`, and the deletion DestroyedCleared from there to the final slots; the length is kept and no destroyed actor remains |
| Updates.CollideAndDelete | Code/Game/Map.cpp:211-214 | The actor pass (ActorsCollided), the map pass (MapPassed) and the deletion (DestroyedCleared), each on the slots the one before left |
| GoldMaps.SoldierName | Code/Game/Gold/GoldMap.cpp:139 | Knife soldiers at level 0, pistol soldiers at every other level |
| GoldMaps.WaveSize | Code/Game/Gold/GoldMap.hpp:21-22 | The soldiers and tanks of a level's wave together; always positive |
| GoldMaps.SpawnGroup | Code/Game/Gold/GoldMap.cpp:136-152 | count actors of the definition at the rolled positions, appended in order with consecutive salts; the earlier slots are kept |
| GoldMaps.SpawnWave | Code/Game/Gold/GoldMap.cpp:134-155 | The level's soldiers, then its tanks, appended at the rolled positions after the kept slots (WaveAt); the remaining enemies and the salt go up by the wave's size (level below 3) |
| GoldMaps.StartWave | Code/Game/Gold/GoldMap.cpp:522-536 | The level's wave is appended at the rolled positions after the kept slots, combat begins, and the remaining enemies and salt go up by the wave's size |
| GoldMaps.WaveAtKept | Code/Game/Gold/GoldMap.cpp:516-538 | A wave already spawned stays where it is when a second wave is appended |
| GoldMaps.Armed | Code/Game/Gold/GoldMap.cpp:504-507 | An AK3D is appended to the actor's weapons; nothing else changes |
| GoldMaps.Awarded | Code/Game/Gold/GoldMap.cpp:504-507 | Only the Player's slot changes, and it holds the AK3D |
| GoldMaps.IncrementLevel | Code/Game/Gold/GoldMap.cpp:488-514 | The level goes up by 1 and combat ends. At level 1 the Player's actor gets an AK3D when its handle resolves; otherwise the actors are unchanged |
| GoldMaps.LevelUpRewardAsWritten | Code/Game/Gold/GoldMap.cpp:504-507 | As written: the reward dereferences whatever GetActor returned |
| GoldMaps.FreeFlyLevelUpDereferencesNull | Code/Game/Gold/GoldMap.cpp:504-507 | With the Player's handle released, the written reward is a null dereference; the corrected one changes nothing |
| GoldMaps.DestroyedDemons | Code/Game/Gold/GoldMap.cpp:431-438 | The count of destroyed DEMONs in a prefix of the slots, no larger than the prefix |
| GoldMaps.PurgedUpTo | Code/Game/Gold/GoldMap.cpp:426-442 | The destroyed actors of a prefix are gone; every other slot is unchanged |
| GoldMaps.Purge | Code/Game/Gold/GoldMap.cpp:428-441 | Only slot i changes: its actor is deleted when destroyed |
| GoldMaps.PurgeStep | Code/Game/Gold/GoldMap.cpp:426-442 | Visiting one more slot extends the purged prefix by one |
| GoldMaps.RewardStep | Code/Game/Gold/GoldMap.cpp:424-443 | A reward given mid-pass lands on the Player's original slot, or nowhere when that actor was destroyed and deleted |
| GoldMaps.ResolvesAfterPurge | Code/Game/Gold/GoldMap.cpp:424-443 | The Player's handle resolves after a partial pass as it did before, unless its actor was destroyed |
| Maps.Resolve | Code/Game/Map.cpp:526-537 | GetActorByUID over a given slot array: a slot exactly when the handle is not the sentinel and its index names an occupied slot holding that very handle, and then that index |
| GoldMaps.RetireSlot | Code/Game/Gold/GoldMap.cpp:428-441 | A destroyed actor is deleted; a DEMON counts down first, and reaching 0 goes up a level |
| GoldMaps.PassStep | Code/Game/Gold/GoldMap.cpp:426-442 | One visit keeps the pass's running state |
| GoldMaps.GoldDeleteDestroyedActors | Code/Game/Gold/GoldMap.cpp:424-443 | Every destroyed actor is deleted and each destroyed DEMON counts down; the level goes up once, iff the count passes through 0, which ends combat |
| GoldMaps.PassLoop | Code/Game/Gold/GoldMap.cpp:426-442 | The loop's running state over every slot |
| GoldMaps.PassDone | Code/Game/Gold/GoldMap.cpp:424-443 | A finished pass leaves no destroyed actor and keeps the wave bookkeeping |
| GoldMaps.WavesStarted | Code/Game/Gold/GoldMap.cpp:516-538 | None in combat or after the last wave; otherwise one for R and one for the VR select button |
| GoldMaps.HandleWaveStart | Code/Game/Gold/GoldMap.cpp:516-538 | WavesPlaced: each wave-start input spawns the level's wave with its own rolls (the R wave first, then the VR select wave after it) and starts combat; actors, remaining enemies and salt grow by one wave size per wave; in combat or after the last wave, nothing; the bookkeeping is kept |
| GoldMaps.WaveSizeAsWritten | Code/Game/Gold/GoldMap.hpp:21-22 | As written: levels past the third read outside the tables |
| GoldMaps.WavesStartedAsWritten | Code/Game/Gold/GoldMap.cpp:516-538 | As written: the only guard is combat mode |
| GoldMaps.FinalWaveClearedThenWaveStartReadsPastTables | Code/Game/Gold/GoldMap.cpp:516-538 | A deletion pass that starts at the third wave's level and counts the remaining enemies down to zero ends at level 3 out of combat, where the written guard starts a wave read past the tables and the corrected guard starts none |
| GoldMaps.WaveStartAgreesWithinTables | Code/Game/Gold/GoldMap.cpp:516-538 | The written and corrected guards agree wherever the tables have an entry |
| GoldMaps.IsValidSpawnLocation | Code/Game/Gold/GoldMap.cpp:410-422 | Valid iff no static actor's disc contains the point |
| GoldMaps.Pivoted | Code/Game/Gold/GoldMap.cpp:177-187 | Only the pivot changes: the position raised by the weapon height along the actor's up direction |
| GoldMaps.UpdateActorPivotPositions | Code/Game/Gold/GoldMap.cpp:177-187 | PivotsPassed: every actor's pivot is recomputed and nothing else changes |
| GoldMaps.GoldUpdate | Code/Game/Gold/GoldMap.cpp:157-175 | In order, each stated on the slots the step before left: the waves placed (WavesPlaced, one roll set per wave), the actor update (Logged), the actor, static-actor, map and pivot passes (GoldPasses), and the deletion pass (PassState); the enemies remaining grow by the waves and count down by the destroyed DEMONs, no slot is lost and no destroyed actor remains |
| GoldMaps.GoldFrame | Code/Game/Gold/GoldMap.cpp:167-174 | The actor update (Logged), the four passes (GoldPasses) and the deletion pass (PassState), each on the slots the step before left |
| GoldMaps.GoldCollideAndDelete | Code/Game/Gold/GoldMap.cpp:169-174 | The four passes (GoldPasses) and then the deletion pass (PassState) on their result |
| GoldMaps.GoldCollisions | Code/Game/Gold/GoldMap.cpp:169-172 | GoldPasses: actor against actor (ActorsCollided), against the static actors (StaticsPassed), against the map (MapPassed), then the pivots (PivotsPassed), each on the slots the one before left |
| PlayerControls.ToggleFreeFly | Code/Game/Player.cpp:63-82 | The mode flips. Entering releases the resolved actor and remembers its handle; leaving possesses the last one again if it resolves; in free-fly the Player drives nothing |
| PlayerControls.FreeFlyRoundTrip | Code/Game/Player.cpp:63-82 | Two toggles hand the Player back the actor it drove |
| PlayerControls.EquipInHand | Code/Game/Player.cpp:388-392 | Only the chosen hand weapon changes: it is equipped by the actor |
| PlayerControls.Grip | Code/Game/Player.cpp:388-402 | The hand's index moves to the next weapon, wrapping, and that weapon is equipped by the possessed actor |

## Left out

- Rendering, audio, particles, animation clocks, the HUD and level
  messages (`ShowLevelMessage`, `Player::RenderScreen`), cameras and
  shadows: not simulation logic.
- The map's visual actors (`m_visualActors`): the hit particles
  `Map::SpawnParticle` appends (Map.cpp:592-601), which the Gold map
  updates each frame (GoldMap.cpp:297-306) and deletes once destroyed
  (GoldMap.cpp:445-453). They live in a list of their own, apart from the
  actor slots, and take no part in collisions, shots, targeting or waves,
  so the model keeps no such list.
- The App and Game glue (engine start-up, frame loop, menus and game
  states): input and output plumbing.
- XML definition loaders: definitions are given as maps from names to
  records.
- Floating-point engine math (ray-cylinder and heat-map raycasts, disc
  pushes, sector tests, normalisation, eye interpolation, random fire
  directions): uninterpreted functions in `Geometry.EngineMath`.
- Random rolls (damage, spawn-point choice, wave placement, cliffs, trees
  and rocks): parameters. The Gold map's static actors are given to its
  constructor, not placed.
- The clock and stopwatches: a weapon's refire timer is its count of
  elapsed, unconsumed periods, and a corpse lifetime is a timer that only
  the clock moves, between frames. A corpse lifetime of length 0, which
  would expire within the frame it starts, is not modelled.
- Keyboard, mouse and VR input polling: key and button states are
  parameters of the operations they trigger. First-person movement and
  the free-fly camera's own motion are not modelled.
- The explosion fan-out of `Actor::Die`: only the death itself is kept.
- Actors.OnPossessed: when the Player takes over with a VR headset, the
  source equips element 0 of each hand list without checking that the list
  is non-empty; the model leaves an empty hand alone (`Actors.EquipFirst`).
- Maps.Map.GetActorByUID: the source does not check the index against the
  vector's size; the model answers None past the end instead of reading
  out of bounds.
- Maps.Map.SpawnPlayer: with no spawn point the source indexes an empty
  vector; the model spawns nothing.
- PlayerControls.Grip: a hand with no weapons makes the source compute
  `% 0`; the model changes nothing. It requires the hand's index to be
  non-negative, which the Player keeps, since the index starts at 0 and
  only ever becomes a remainder.
- Actors.TurnInDirection: the bound on the turn holds only where the
  engine's GetTurnedTowardDegrees keeps to its budget (the `TurnsWithin`
  property of the engine math); the engine's float code is not modelled,
  so the contract states the turn through that property.
- Collisions.CollideActors: the source tests only at the start of a row
  whether slot i is alive (Map.cpp:351-354); when slot i dies mid-row the
  row goes on and its later pairs are still collided. The model follows
  the source, so it states aliveness of the row's first actor only at the
  row's start (`RowsStartAlive`), not for every pair.
- AIs.Engage: when the AI attacks, the contract states the decision and
  the frame invariants (slots kept, no refire period gained), but not the
  actors after the shot and the turn. The shot on its own is stated by
  `Firing.Attack` (`FiredFrom`); Engage does not carry it past the turn.
- Collisions.OnCollide: does not state the controllers afterwards; each
  damage notification is stated where it happens
  (`Collisions.PushApartAndDamage`, `Collisions.NotifyDamaged`).
- Collisions.CollidePair: does not state the controllers afterwards; each
  damage notification is stated where it happens
  (`Collisions.PushApartAndDamage`, `Collisions.NotifyDamaged`).
- Collisions.CollideActors: does not state the controllers afterwards; each
  damage notification is stated where it happens
  (`Collisions.PushApartAndDamage`, `Collisions.NotifyDamaged`).
- Firing.FireRays: does not state the controllers afterwards; each victim's
  notification is stated per ray and per blow (`Firing.RayShot`,
  `Firing.MeleeStrike`).
- Firing.MeleeSweep: does not state the controllers afterwards; each
  victim's notification is stated per ray and per blow (`Firing.RayShot`,
  `Firing.MeleeStrike`).
- Firing.FireMelee: does not state the controllers afterwards; each victim's
  notification is stated per ray and per blow (`Firing.RayShot`,
  `Firing.MeleeStrike`).
- Firing.FireResolved: does not state the controllers afterwards; each
  victim's notification is stated per ray and per blow (`Firing.RayShot`,
  `Firing.MeleeStrike`).
- Firing.Discharge: does not state the controllers afterwards; each victim's
  notification is stated per ray and per blow (`Firing.RayShot`,
  `Firing.MeleeStrike`).
- Firing.Fire: does not state the controllers afterwards; each victim's
  notification is stated per ray and per blow (`Firing.RayShot`,
  `Firing.MeleeStrike`).
- Firing.Attack: does not state the controllers afterwards; each victim's
  notification is stated per ray and per blow (`Firing.RayShot`,
  `Firing.MeleeStrike`).
- Updates.UpdateMap: does not state the controllers after the frame, which
  the collisions and shots change (AI targets, the Player's deaths and
  kills).
- GoldMaps.GoldUpdate: does not state the controllers after the frame, which
  the collisions and shots change (AI targets, the Player's deaths and
  kills).
- Maps.Map.ConstructMapFromImage: the texel's alpha roll is not modelled.
  The source sets a cell's tile only when `RollRandomIntInRange(0, 254)` is
  below the texel's alpha, and tries every definition whose colour matches,
  so the last match whose roll passes wins. The model takes the image as
  one tile type per cell, the type that ends up there, so a cell that keeps
  its default tile is not represented. An unmatched texel stops the source
  with a fatal error; the model requires every cell's type to be a known
  definition, so that error path is not modelled.
- AIs.AttackAndTurn: states the frame invariants (valid map, slots kept,
  spawns only by spending pending shots) but not the actors after the shot
  and the turn, for the reason given for AIs.Engage.
- AIs.Pursue: once engaged, states only what AIs.Engage states.
- AIs.UpdateAI: once it resolves its actor, it does not state which target
  was acquired (AIs.AcquireTarget does) nor the engagement's effect.
- GoldMaps.GoldDeleteDestroyedActors: requires the wave bookkeeping
  invariant (`GoldStateOk`), which every Gold map step keeps and a new
  Gold map satisfies.
- Static actor types (rocks, trees, cliffs, the dragon) and the player
  actor subclass: only their footprint discs and definitions take part.

## Findings

| source | as written | input that shows it | evidently intended | confidence | as-written member | corrected member |
|---|---|---|---|---|---|---|
| Code/Game/Gold/GoldMap.cpp:516-538 | HandleWaveStart guards only on combat mode, and SpawnWave then reads `SOLDIERS_IN_WAVE[m_level]` | Clear the third wave: DeleteDestroyedActors raises the level to 3 and ends combat. Then press R: index 3 of a 3-entry table | No wave starts after the last wave | not executed | GoldMaps.FinalWaveClearedThenWaveStartReadsPastTables | GoldMaps.HandleWaveStart |
| Code/Game/Gold/GoldMap.cpp:504-507 | On reaching level 1, `m_game->m_player->GetActor()->m_weapons.push_back(...)` with no null check | Toggle free-fly (F) during wave 1, so the Player's handle becomes INVALID; the last demon dies | The reward is skipped when the Player drives no actor | not executed | GoldMaps.FreeFlyLevelUpDereferencesNull | GoldMaps.IncrementLevel |
| Code/Game/Actor.cpp:422-430 | OnCollide calls `other->m_controller->DamagedBy(...)` without testing `m_controller` | The Player's marine (no AI) released by free-fly, struck by a damaging projectile whose owner is alive | As in Weapon::Fire, an actor without a controller is not told | not executed | Collisions.ReleasedActorWithoutAIIsANullDereference | Collisions.NotifyDamaged |
| Code/Game/AI.cpp:49 | The range gate reads `m_weapons[m_equippedWeaponIndex]` without checking the index | An AI actor whose definition has no weapons (index -1) engaging a target | An unarmed actor is never in firing range | not executed | AIs.UnarmedRangeReadIsOutOfBounds | AIs.RangeGatesAgree |
