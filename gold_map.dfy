/**
 * The gold map's wave and level state machine. Out of combat the Player
 * starts a wave (key R, or the VR select button); a wave is a set of soldiers
 * and tanks whose count is added to the remaining enemies; each destroyed
 * DEMON lowers the count and, when it reaches zero, the level goes up and
 * combat ends. Reaching level 1 gives the Player's actor an AK3D. There are
 * three waves.
 */
module GoldMaps {

  import opened Wrappers
  import opened ActorUIDs
  import opened Geometry
  import opened Tiles
  import opened ActorDefinitions
  import opened WeaponDefinitions
  import opened Weapons
  import opened Controllers
  import opened Actors
  import opened ActorSlots
  import opened Maps
  import opened Collisions
  import opened Updates

  /** SOLDIERS_IN_WAVE and TANKS_IN_WAVE: the size of each of the three waves. */
  const SOLDIERS_IN_WAVE: seq<nat> := [10, 15, 20]
  const TANKS_IN_WAVE: seq<nat> := [0, 0, 3]

  /** The number of waves the tables describe. */
  const WAVES: nat := 3

  /**
   * The rolls a wave reads, by spawn index: each soldier's and each tank's
   * position (rolled in the map's box) and yaw.
   */
  datatype WaveRolls = WaveRolls(soldierPosition: nat -> Vec3, soldierYaw: nat -> real,
                                 tankPosition: nat -> Vec3, tankYaw: nat -> real)

  /** The soldiers of the first wave carry knives; later ones carry pistols. */
  function SoldierName(level: int): (name: string)
    ensures name == "EnemyKnifeSoldier" <==> level == 0
    ensures name == "EnemyPistolSoldier" <==> level != 0
  {
    if level == 0 then "EnemyKnifeSoldier" else "EnemyPistolSoldier"
  }

  /** The size of the wave at `level`: its soldiers and tanks together. */
  function WaveSize(level: nat): (n: nat)
    requires level < WAVES
    ensures n == SOLDIERS_IN_WAVE[level] + TANKS_IN_WAVE[level]
    ensures n > 0
  {
    SOLDIERS_IN_WAVE[level] + TANKS_IN_WAVE[level]
  }

  /** The slot holds an actor of the named definition, placed at `position`. */
  predicate SpawnedAs(defs: map<string, ActorDefinition>, o: Option<Actor>, name: string, position: Vec3)
  {
    o.Some? && o.value.definition == LookupActorDefinition(defs, name) && o.value.position == position
  }

  /**
   * The wave of `level` sits in the slots from `base` on, as the rolls r
   * place it: the level's soldiers first, then its tanks.
   */
  predicate WaveAt(defs: map<string, ActorDefinition>, s: seq<Option<Actor>>, base: nat, level: nat, r: WaveRolls)
    requires level < WAVES
  {
    var soldiers, tanks := SOLDIERS_IN_WAVE[level], TANKS_IN_WAVE[level];
    base + soldiers + tanks <= |s| &&
    (forall k :: 0 <= k < soldiers ==> SpawnedAs(defs, s[base + k], SoldierName(level), r.soldierPosition(k))) &&
    (forall k :: 0 <= k < tanks ==> SpawnedAs(defs, s[base + soldiers + k], "Tank", r.tankPosition(k)))
  }

  /** Appending slots keeps a wave where it is. */
  lemma WaveAtKept(defs: map<string, ActorDefinition>, s: seq<Option<Actor>>, t: seq<Option<Actor>>, base: nat,
                   level: nat, r: WaveRolls)
    requires level < WAVES && WaveAt(defs, s, base, level, r)
    requires |s| <= |t| && t[..|s|] == s
    ensures WaveAt(defs, t, base, level, r)
  {
    assert forall j :: 0 <= j < |s| ==> t[j] == t[..|s|][j];
  }

  /**
   * One loop of SpawnWave: `count` actors of the named definition, the k-th
   * at position(k) facing yaw(k), appended in order with consecutive salts.
   */
  method SpawnGroup(m: Map, name: string, count: nat, position: nat -> Vec3, yaw: nat -> real)
    requires m.Valid()
    modifies m`actors, m`actorSalt, m`ais
    ensures |m.actors| == old(|m.actors|) + count && m.actors[..old(|m.actors|)] == old(m.actors)
    ensures forall k :: 0 <= k < count ==> SpawnedAs(m.actorDefs, m.actors[old(|m.actors|) + k], name, position(k))
    ensures m.actorSalt == old(m.actorSalt) + count
    ensures m.Valid() && Evolves(old(m.actors), m.actors)
  {
    EvolvesReflexive(m.actors);
    var k := 0;
    while k < count
      invariant 0 <= k <= count
      invariant |m.actors| == old(|m.actors|) + k && m.actors[..old(|m.actors|)] == old(m.actors)
      invariant forall j :: 0 <= j < k ==> SpawnedAs(m.actorDefs, m.actors[old(|m.actors|) + j], name, position(j))
      invariant m.actorSalt == old(m.actorSalt) + k
      invariant m.Valid() && Evolves(old(m.actors), m.actors)
    {
      ghost var before := m.actors;
      var slot := m.SpawnActor(SpawnInfo(name, position(k), EulerAngles(yaw(k), 0.0, 0.0)));
      assert m.actors[..|before|] == before;
      assert forall j :: 0 <= j < |before| ==> m.actors[j] == before[j];
      assert m.actors[..old(|m.actors|)] == before[..old(|m.actors|)];
      EvolvesTransitive(old(m.actors), before, m.actors);
      k := k + 1;
    }
  }

  /**
   * GoldMap::SpawnWave: the wave of the current level, its soldiers first,
   * then its tanks; the remaining enemies go up by the wave's size. The
   * tables have three entries, so the level must be below 3.
   */
  method SpawnWave(m: Map, rolls: WaveRolls)
    requires m.Valid() && 0 <= m.level < WAVES
    modifies m`actors, m`actorSalt, m`ais, m`remainingEnemies
    ensures var n, s, t := old(|m.actors|), SOLDIERS_IN_WAVE[m.level], TANKS_IN_WAVE[m.level];
      |m.actors| == n + s + t && m.actors[..n] == old(m.actors) &&
      (forall k :: 0 <= k < s ==> SpawnedAs(m.actorDefs, m.actors[n + k], SoldierName(m.level), rolls.soldierPosition(k))) &&
      (forall k :: 0 <= k < t ==> SpawnedAs(m.actorDefs, m.actors[n + s + k], "Tank", rolls.tankPosition(k)))
    ensures WaveAt(m.actorDefs, m.actors, old(|m.actors|), m.level, rolls)
    ensures m.remainingEnemies == old(m.remainingEnemies) + WaveSize(m.level)
    ensures m.actorSalt == old(m.actorSalt) + WaveSize(m.level)
    ensures m.Valid() && Evolves(old(m.actors), m.actors)
  {
    var s, t := SOLDIERS_IN_WAVE[m.level], TANKS_IN_WAVE[m.level];
    SpawnGroup(m, SoldierName(m.level), s, rolls.soldierPosition, rolls.soldierYaw);
    ghost var soldiers := m.actors;
    SpawnGroup(m, "Tank", t, rolls.tankPosition, rolls.tankYaw);
    assert m.actors[..|soldiers|] == soldiers;
    assert forall j :: 0 <= j < |soldiers| ==> m.actors[j] == soldiers[j];
    assert m.actors[..old(|m.actors|)] == soldiers[..old(|m.actors|)];
    EvolvesTransitive(old(m.actors), soldiers, m.actors);
    m.remainingEnemies := m.remainingEnemies + s + t;
  }

  /** The level-1 reward: an AK3D appended to the actor's weapons, not yet equipped. */
  function Armed(a: Actor, defs: map<string, WeaponDefinition>): (r: Actor)
    ensures |r.weapons| == |a.weapons| + 1 && r.weapons[..|a.weapons|] == a.weapons
    ensures r.weapons[|a.weapons|] == NewWeapon(LookupWeaponDefinition(defs, "AK3D"))
    ensures r.(weapons := a.weapons) == a
    ensures Persists(a, r)
    ensures forall n: nat :: WellFormed(a, n) ==> WellFormed(r, n)
  {
    PendingOfAppend(a.weapons, NewWeapon(LookupWeaponDefinition(defs, "AK3D")));
    a.(weapons := a.weapons + [NewWeapon(LookupWeaponDefinition(defs, "AK3D"))])
  }

  /**
   * The slot array after the level-1 reward: the Player's actor, when its
   * handle resolves to slot p, holds the AK3D; nothing else changes.
   */
  function Awarded(s: seq<Option<Actor>>, p: Option<nat>, defs: map<string, WeaponDefinition>): (r: seq<Option<Actor>>)
    ensures |r| == |s|
    ensures forall k :: 0 <= k < |s| && Some(k) != p ==> r[k] == s[k]
    ensures p.Some? && p.value < |s| && s[p.value].Some? ==> r[p.value] == Some(Armed(s[p.value].value, defs))
    ensures p.Some? && p.value < |s| && s[p.value].None? ==> r == s
    ensures forall k :: 0 <= k < |s| ==> IsDestroyed(r[k]) == IsDestroyed(s[k]) && DestroyedDemon(r[k]) == DestroyedDemon(s[k])
  {
    if p.Some? && p.value < |s| && s[p.value].Some? then s[p.value := Some(Armed(s[p.value].value, defs))] else s
  }

  /**
   * GoldMap::IncrementLevel: the level goes up by one and combat ends. A
   * level that reaches 0 (only from -1, which the game never sets) starts
   * its wave at once if R is down. On
   * reaching level 1 the Player's actor receives an AK3D, provided the
   * Player's handle resolves (in the free-fly camera it does not: see
   * LevelUpRewardAsWritten).
   */
  method IncrementLevel(m: Map, keyR: bool, rolls: WaveRolls)
    requires m.Valid()
    modifies m`actors, m`actorSalt, m`ais, m`remainingEnemies, m`level, m`isCombatMode
    ensures m.level == old(m.level) + 1
    ensures m.isCombatMode <==> m.level == 0 && keyR
    ensures m.level == 0 && keyR ==>
      m.remainingEnemies == old(m.remainingEnemies) + WaveSize(0) && |m.actors| == old(|m.actors|) + WaveSize(0) &&
      m.actors[..old(|m.actors|)] == old(m.actors)
    ensures m.level != 0 || !keyR ==>
      m.remainingEnemies == old(m.remainingEnemies) && m.actorSalt == old(m.actorSalt) && m.ais == old(m.ais)
    ensures m.level == 1 ==> m.actors == Awarded(old(m.actors), old(m.GetActor(PlayerCtl)), m.weaponDefs)
    ensures m.level != 0 && m.level != 1 ==> m.actors == old(m.actors)
    ensures m.Valid() && Evolves(old(m.actors), m.actors)
  {
    EvolvesReflexive(m.actors);
    m.level := m.level + 1;
    m.isCombatMode := false;
    if m.level == 0 {
      if keyR {
        SpawnWave(m, rolls);
        m.isCombatMode := true;
      }
    } else if m.level == 1 {
      var p := m.GetActor(PlayerCtl);
      if p.Some? {
        var a := m.actors[p.value].value;
        m.SetActor(p.value, Armed(a, m.weaponDefs));
      }
    }
  }

  // ---------------------------------------------------------------- the level-1 reward as written

  /** What the level-up reward does, as written: it reaches through the Player's actor without a null check. */
  datatype RewardOutcome = NoReward | RewardTo(slot: nat) | NullActorDereference

  /**
   * IncrementLevel's reward step as written: on reaching level 1 it asks
   * the Player for its actor and appends to that actor's weapons, whatever
   * the lookup returned.
   */
  function LevelUpRewardAsWritten(newLevel: int, playerActor: Option<nat>): (r: RewardOutcome)
    ensures newLevel != 1 ==> r == NoReward
    ensures newLevel == 1 && playerActor.Some? ==> r == RewardTo(playerActor.value)
    ensures newLevel == 1 && playerActor.None? ==> r == NullActorDereference
  {
    if newLevel != 1 then NoReward
    else if playerActor.Some? then RewardTo(playerActor.value)
    else NullActorDereference
  }

  /**
   * The discrepancy: when the first wave's last demon dies while the Player
   * flies the free camera (its handle released), the reward dereferences a
   * null actor; the corrected IncrementLevel leaves every slot as it was.
   */
  lemma FreeFlyLevelUpDereferencesNull(m: Map)
    requires m.player.actorUID == ActorUID.INVALID
    ensures LevelUpRewardAsWritten(1, m.GetActor(PlayerCtl)) == NullActorDereference
    ensures Awarded(m.actors, m.GetActor(PlayerCtl), m.weaponDefs) == m.actors
  {
  }

  // ---------------------------------------------------------------- deleting destroyed actors

  /** The slot holds a destroyed actor. */
  predicate IsDestroyed(o: Option<Actor>)
  {
    o.Some? && o.value.isDestroyed
  }

  /** The slot holds a destroyed enemy: one the remaining-enemies count includes. */
  predicate DestroyedDemon(o: Option<Actor>)
  {
    IsDestroyed(o) && o.value.definition.faction == DEMON
  }

  /** The destroyed DEMON actors among the first n slots. */
  function DestroyedDemons(s: seq<Option<Actor>>, n: nat): (d: nat)
    requires n <= |s|
    ensures d <= n
  {
    if n == 0 then 0 else DestroyedDemons(s, n - 1) + (if DestroyedDemon(s[n - 1]) then 1 else 0)
  }

  /** The slots after the first n have been visited: each destroyed actor among them is gone. */
  function PurgedUpTo(s: seq<Option<Actor>>, n: nat): (r: seq<Option<Actor>>)
    ensures |r| == |s|
    ensures forall k :: 0 <= k < |s| ==> r[k] == (if k < n && IsDestroyed(s[k]) then None else s[k])
  {
    seq(|s|, k requires 0 <= k < |s| => if k < n && IsDestroyed(s[k]) then None else s[k])
  }

  /** Slot i is visited: its actor is deleted if destroyed. */
  function Purge(s: seq<Option<Actor>>, i: nat): (r: seq<Option<Actor>>)
    requires i < |s|
    ensures |r| == |s|
    ensures forall k :: 0 <= k < |s| && k != i ==> r[k] == s[k]
    ensures r[i] == (if IsDestroyed(s[i]) then None else s[i])
  {
    if IsDestroyed(s[i]) then s[i := None] else s
  }

  /** Visiting one more slot extends the purged prefix by one. */
  lemma PurgeStep(s: seq<Option<Actor>>, i: nat)
    requires i < |s|
    ensures Purge(PurgedUpTo(s, i), i) == PurgedUpTo(s, i + 1)
  {
    assert forall k :: 0 <= k < |s| ==> Purge(PurgedUpTo(s, i), i)[k] == PurgedUpTo(s, i + 1)[k];
  }

  /**
   * The reward given while slot i is visited lands where the reward given
   * to the original slots would: either on the same slot, or nowhere
   * because the Player's actor was destroyed and already deleted.
   */
  lemma RewardStep(s: seq<Option<Actor>>, p: Option<nat>, q: Option<nat>, defs: map<string, WeaponDefinition>, i: nat)
    requires i < |s|
    requires q == p || (p.Some? && p.value < i && IsDestroyed(s[p.value]) && q.None?)
    ensures Purge(Awarded(PurgedUpTo(s, i), q, defs), i) == PurgedUpTo(Awarded(s, p, defs), i + 1)
  {
    var lhs := Purge(Awarded(PurgedUpTo(s, i), q, defs), i);
    var rhs := PurgedUpTo(Awarded(s, p, defs), i + 1);
    forall k | 0 <= k < |s|
      ensures lhs[k] == rhs[k]
    {
      if p.Some? && p.value == k && p.value < |s| && s[k].Some? {
        assert Awarded(s, p, defs)[k] == Some(Armed(s[k].value, defs));
      }
    }
  }

  /**
   * The Player's handle resolves in the purged slots as it did in the
   * original ones, unless its actor was destroyed and deleted.
   */
  lemma ResolvesAfterPurge(m: Map, s: seq<Option<Actor>>, t: seq<Option<Actor>>, i: nat, uid: ActorUID)
    requires |s| == |t| && i <= |s|
    requires m.actors == PurgedUpTo(t, i)
    requires forall k :: 0 <= k < |s| ==> t[k] == s[k] || (s[k].Some? && t[k].Some? && t[k].value.uid == s[k].value.uid &&
                                                            t[k].value.isDestroyed == s[k].value.isDestroyed)
    ensures var r := Resolve(s, uid);
      m.GetActorByUID(uid) == (if r.Some? && r.value < i && IsDestroyed(s[r.value]) then None else r)
  {
  }

  /**
   * The bookkeeping of the wave state that every step keeps: the level runs
   * from 0 to 3, combat happens only at a level that has a wave, and once
   * the last wave is cleared no enemies remain to be counted down. It holds
   * for a new gold map (level 0, no enemies, out of combat).
   */
  predicate GoldStateOk(m: Map)
    reads m
  {
    0 <= m.level <= WAVES && (m.isCombatMode ==> m.level < WAVES) && (m.level == WAVES ==> m.remainingEnemies <= 0)
  }

  /**
   * One visit of GoldMap::DeleteDestroyedActors: a destroyed actor is
   * deleted; when it is a DEMON the remaining count goes down first, and
   * when that reaches zero the level goes up.
   */
  method RetireSlot(m: Map, i: nat, keyR: bool, rolls: WaveRolls)
    requires m.Valid() && i < |m.actors| && 0 <= m.level
    modifies m`actors, m`actorSalt, m`ais, m`remainingEnemies, m`level, m`isCombatMode
    ensures var demon := DestroyedDemon(old(m.actors[i]));
      var up := demon && old(m.remainingEnemies) == 1;
      m.remainingEnemies == old(m.remainingEnemies) - (if demon then 1 else 0) &&
      m.level == old(m.level) + (if up then 1 else 0) &&
      m.isCombatMode == (!up && old(m.isCombatMode)) &&
      m.actors == Purge(if up && m.level == 1 then Awarded(old(m.actors), old(m.GetActor(PlayerCtl)), m.weaponDefs)
                        else old(m.actors), i)
    ensures m.actorSalt == old(m.actorSalt) && m.ais == old(m.ais)
    ensures m.Valid() && Evolves(old(m.actors), m.actors)
  {
    EvolvesReflexive(m.actors);
    if m.actors[i].Some? && m.actors[i].value.isDestroyed {
      if m.actors[i].value.definition.faction == DEMON {
        m.remainingEnemies := m.remainingEnemies - 1;
        if m.remainingEnemies == 0 {
          IncrementLevel(m, keyR, rolls);
        }
      }
      ghost var before := m.actors;
      m.ClearSlot(i);
      EvolvesTransitive(old(m.actors), before, m.actors);
    }
  }

  /**
   * The deletion pass after visiting the first i slots of `s`, starting from
   * the counters (r0, level0, combat0), with p the slot the Player resolved
   * to at the start: the remaining count is down by the destroyed DEMONs
   * seen; the level is up by one, and combat over, exactly when the count
   * has passed through zero; the visited destroyed actors are deleted; and
   * if the level reached 1, the Player's actor holds the AK3D.
   */
  ghost predicate PassState(m: Map, s: seq<Option<Actor>>, p: Option<nat>, i: nat, r0: int, level0: int, combat0: bool)
    reads m
  {
    i <= |s| &&
    var d := DestroyedDemons(s, i); var up := 0 < r0 <= d;
    m.remainingEnemies == r0 - d &&
    m.level == level0 + (if up then 1 else 0) &&
    m.isCombatMode == (!up && combat0) &&
    m.actors == PurgedUpTo(Awarded(s, if up && level0 == 0 then p else None, m.weaponDefs), i)
  }

  /** One visit of the deletion pass, in the terms of PassState. */
  method PassStep(m: Map, keyR: bool, rolls: WaveRolls, ghost s: seq<Option<Actor>>, ghost p: Option<nat>, i: nat,
                  ghost r0: int, ghost level0: int, ghost combat0: bool)
    requires m.Valid() && i < |s| && 0 <= level0 && PassState(m, s, p, i, r0, level0, combat0)
    requires level0 == 0 ==> p == (if m.player.onMap then Resolve(s, m.player.actorUID) else None)
    modifies m`actors, m`actorSalt, m`ais, m`remainingEnemies, m`level, m`isCombatMode
    ensures PassState(m, s, p, i + 1, r0, level0, combat0)
    ensures m.actorSalt == old(m.actorSalt) && m.ais == old(m.ais)
    ensures m.Valid() && Evolves(old(m.actors), m.actors)
  {
    ghost var up := 0 < r0 <= DestroyedDemons(s, i);
    ghost var t := Awarded(s, if up && level0 == 0 then p else None, m.weaponDefs);
    ghost var q := m.GetActor(PlayerCtl);
    if !up && level0 == 0 {
      assert Awarded(s, None, m.weaponDefs) == s;
      ResolvesAfterPurge(m, s, s, i, m.player.actorUID);
      assert m.CtlActorUID(PlayerCtl) == m.player.actorUID;
      assert q == p || (p.Some? && p.value < i && IsDestroyed(s[p.value]) && q.None?);
    }
    assert DestroyedDemon(m.actors[i]) == DestroyedDemon(s[i]);
    RetireSlot(m, i, keyR, rolls);
    if !up && 0 < r0 <= DestroyedDemons(s, i + 1) && level0 == 0 {
      RewardStep(s, p, q, m.weaponDefs, i);
    } else {
      PurgeStep(t, i);
    }
  }

  /**
   * GoldMap::DeleteDestroyedActors: every destroyed actor is deleted and
   * each destroyed DEMON counts down the remaining enemies. The level goes
   * up once, exactly when the count passes through zero, which ends combat;
   * the level-1 reward goes to the Player's actor as it resolved before the
   * pass. No destroyed actor remains.
   */
  method GoldDeleteDestroyedActors(m: Map, keyR: bool, rolls: WaveRolls)
    requires m.Valid() && GoldStateOk(m)
    modifies m`actors, m`actorSalt, m`ais, m`remainingEnemies, m`level, m`isCombatMode
    ensures PassState(m, old(m.actors), old(m.GetActor(PlayerCtl)), old(|m.actors|),
                      old(m.remainingEnemies), old(m.level), old(m.isCombatMode))
    ensures forall k :: 0 <= k < |m.actors| ==> !IsDestroyed(m.actors[k])
    ensures m.actorSalt == old(m.actorSalt) && m.ais == old(m.ais)
    ensures GoldStateOk(m) && m.Valid() && Evolves(old(m.actors), m.actors)
  {
    ghost var p := m.GetActor(PlayerCtl);
    ghost var s := m.actors;
    assert Awarded(s, None, m.weaponDefs) == s;
    assert m.CtlActorUID(PlayerCtl) == m.player.actorUID;
    PassLoop(m, keyR, rolls, s, p, m.remainingEnemies, m.level, m.isCombatMode);
  }

  /** The loop of GoldMap::DeleteDestroyedActors, from a pass that has visited no slot yet. */
  method PassLoop(m: Map, keyR: bool, rolls: WaveRolls, ghost s: seq<Option<Actor>>, ghost p: Option<nat>,
                  ghost r0: int, ghost level0: int, ghost combat0: bool)
    requires m.Valid() && m.actors == s && PassState(m, s, p, 0, r0, level0, combat0)
    requires 0 <= level0 <= WAVES && (combat0 ==> level0 < WAVES) && (level0 == WAVES ==> r0 <= 0)
    requires p == (if m.player.onMap then Resolve(s, m.player.actorUID) else None)
    modifies m`actors, m`actorSalt, m`ais, m`remainingEnemies, m`level, m`isCombatMode
    ensures PassState(m, s, p, |s|, r0, level0, combat0)
    ensures forall k :: 0 <= k < |m.actors| ==> !IsDestroyed(m.actors[k])
    ensures m.actorSalt == old(m.actorSalt) && m.ais == old(m.ais)
    ensures GoldStateOk(m) && m.Valid() && Evolves(s, m.actors)
  {
    EvolvesReflexive(s);
    var i := 0;
    while i < |m.actors|
      invariant 0 <= i <= |m.actors| == |s|
      invariant PassState(m, s, p, i, r0, level0, combat0)
      invariant m.actorSalt == old(m.actorSalt) && m.ais == old(m.ais) && m.player == old(m.player)
      invariant m.Valid() && Evolves(s, m.actors)
    {
      ghost var before := m.actors;
      PassStep(m, keyR, rolls, s, p, i, r0, level0, combat0);
      EvolvesTransitive(s, before, m.actors);
      i := i + 1;
    }
    PassDone(m, s, p, r0, level0, combat0);
  }

  /** A finished pass leaves no destroyed actor and keeps the wave bookkeeping. */
  lemma PassDone(m: Map, s: seq<Option<Actor>>, p: Option<nat>, r0: int, level0: int, combat0: bool)
    requires PassState(m, s, p, |s|, r0, level0, combat0)
    requires 0 <= level0 <= WAVES && (combat0 ==> level0 < WAVES) && (level0 == WAVES ==> r0 <= 0)
    ensures GoldStateOk(m)
    ensures forall k :: 0 <= k < |m.actors| ==> !IsDestroyed(m.actors[k])
  {
  }

  // ---------------------------------------------------------------- starting a wave

  /**
   * The number of waves a frame starts: none in combat or once the three
   * waves are done; otherwise one for R and one more for the VR select
   * button (`select` is false without a headset), both on the same frame.
   */
  function WavesStarted(isCombatMode: bool, level: int, keyR: bool, select: bool): (n: nat)
    ensures n <= 2
    ensures n > 0 <==> !isCombatMode && level < WAVES && (keyR || select)
    ensures n == 2 <==> !isCombatMode && level < WAVES && keyR && select
  {
    if isCombatMode || level >= WAVES then 0 else (if keyR then 1 else 0) + (if select then 1 else 0)
  }

  /**
   * The wave start of GoldMap::Update on values: n waves start (none, one
   * or two); the old slots are kept and each wave is appended at the
   * positions its own rolls give.
   */
  ghost predicate WavesPlaced(defs: map<string, ActorDefinition>, before: seq<Option<Actor>>, after: seq<Option<Actor>>,
                              n: nat, level: int, rolls: nat -> WaveRolls)
  {
    (n == 0 ==> after == before) &&
    (n > 0 ==> 0 <= level < WAVES && |after| == |before| + n * WaveSize(level) && after[..|before|] == before &&
               WaveAt(defs, after, |before|, level, rolls(0))) &&
    (n == 2 ==> 0 <= level < WAVES && WaveAt(defs, after, |before| + WaveSize(level), level, rolls(1)))
  }

  /**
   * GoldMap::HandleWaveStart, with the level guard the wave tables need:
   * out of combat, each wave-start input spawns the current level's wave
   * and starts combat; in combat, or after the last wave, nothing happens.
   * Each wave rolls its own positions: the w-th wave the frame starts is
   * placed by rolls(w). The bookkeeping invariant is kept, so the wave
   * tables are never read out of range.
   */
  method HandleWaveStart(m: Map, keyR: bool, vrSelect: bool, rolls: nat -> WaveRolls)
    requires m.Valid() && GoldStateOk(m)
    modifies m`actors, m`actorSalt, m`ais, m`remainingEnemies, m`isCombatMode
    ensures var n := WavesStarted(old(m.isCombatMode), m.level, keyR, m.vr && vrSelect);
      (n == 0 ==> m.actors == old(m.actors) && m.remainingEnemies == old(m.remainingEnemies) &&
                  m.isCombatMode == old(m.isCombatMode) && m.actorSalt == old(m.actorSalt) && m.ais == old(m.ais)) &&
      (n > 0 ==> m.isCombatMode && |m.actors| == old(|m.actors|) + n * WaveSize(m.level) &&
                 m.actors[..old(|m.actors|)] == old(m.actors) &&
                 m.remainingEnemies == old(m.remainingEnemies) + n * WaveSize(m.level) &&
                 m.actorSalt == old(m.actorSalt) + n * WaveSize(m.level) &&
                 WaveAt(m.actorDefs, m.actors, old(|m.actors|), m.level, rolls(0))) &&
      (n == 2 ==> WaveAt(m.actorDefs, m.actors, old(|m.actors|) + WaveSize(m.level), m.level, rolls(1)))
    ensures WavesPlaced(m.actorDefs, old(m.actors), m.actors, WavesStarted(old(m.isCombatMode), m.level, keyR, m.vr && vrSelect),
                        m.level, rolls)
    ensures GoldStateOk(m) && m.Valid() && Evolves(old(m.actors), m.actors)
  {
    EvolvesReflexive(m.actors);
    if m.isCombatMode || m.level >= WAVES {
      return;
    }
    var started := 0;
    if keyR {
      StartWave(m, rolls(0));
      started := 1;
    }
    ghost var first := m.actors;
    if m.vr && vrSelect {
      StartWave(m, rolls(started));
      assert m.actors[..old(|m.actors|)] == first[..old(|m.actors|)];
      EvolvesTransitive(old(m.actors), first, m.actors);
      if keyR {
        WaveAtKept(m.actorDefs, first, m.actors, old(|m.actors|), m.level, rolls(0));
      }
    }
  }

  /** One wave start of HandleWaveStart: the current level's wave is spawned and combat begins. */
  method StartWave(m: Map, r: WaveRolls)
    requires m.Valid() && 0 <= m.level < WAVES
    modifies m`actors, m`actorSalt, m`ais, m`remainingEnemies, m`isCombatMode
    ensures m.isCombatMode
    ensures |m.actors| == old(|m.actors|) + WaveSize(m.level) && m.actors[..old(|m.actors|)] == old(m.actors)
    ensures forall j :: 0 <= j < old(|m.actors|) ==> m.actors[j] == old(m.actors[j])
    ensures WaveAt(m.actorDefs, m.actors, old(|m.actors|), m.level, r)
    ensures m.remainingEnemies == old(m.remainingEnemies) + WaveSize(m.level)
    ensures m.actorSalt == old(m.actorSalt) + WaveSize(m.level)
    ensures m.Valid() && Evolves(old(m.actors), m.actors)
  {
    SpawnWave(m, r);
    assert forall j :: 0 <= j < old(|m.actors|) ==> m.actors[j] == m.actors[..old(|m.actors|)][j];
    m.isCombatMode := true;
  }

  // ---------------------------------------------------------------- the wave start as written

  /** The wave tables as written: an index past the third entry reads outside the arrays. */
  function WaveSizeAsWritten(level: int): (r: Option<nat>)
    ensures r.Some? <==> 0 <= level < WAVES
    ensures r.Some? ==> r.value == SOLDIERS_IN_WAVE[level] + TANKS_IN_WAVE[level]
  {
    if 0 <= level < WAVES then Some(SOLDIERS_IN_WAVE[level] + TANKS_IN_WAVE[level]) else None
  }

  /** HandleWaveStart as written: the only guard is combat mode. */
  function WavesStartedAsWritten(isCombatMode: bool, keyR: bool, select: bool): (n: nat)
    ensures n > 0 <==> !isCombatMode && (keyR || select)
  {
    if isCombatMode then 0 else (if keyR then 1 else 0) + (if select then 1 else 0)
  }

  /**
   * The discrepancy: a deletion pass (GoldDeleteDestroyedActors) that starts
   * at the third wave's level and counts the remaining enemies down to zero
   * leaves the map at level 3 out of combat. There the written guard lets R
   * start a wave whose size is read past the end of both tables; the
   * corrected guard starts none.
   */
  lemma FinalWaveClearedThenWaveStartReadsPastTables(m: Map, s: seq<Option<Actor>>, p: Option<nat>, r0: int,
                                                      combat0: bool, keyR: bool, select: bool)
    requires PassState(m, s, p, |s|, r0, WAVES - 1, combat0)
    requires 0 < r0 <= DestroyedDemons(s, |s|)
    requires keyR || select
    ensures m.level == WAVES && !m.isCombatMode
    ensures WavesStartedAsWritten(m.isCombatMode, keyR, select) > 0 && WaveSizeAsWritten(m.level).None?
    ensures WavesStarted(m.isCombatMode, m.level, keyR, select) == 0
  {
  }

  /** The written and the corrected guard agree wherever the wave tables have an entry. */
  lemma WaveStartAgreesWithinTables(isCombatMode: bool, level: int, keyR: bool, select: bool)
    requires level < WAVES
    ensures WavesStarted(isCombatMode, level, keyR, select) == WavesStartedAsWritten(isCombatMode, keyR, select)
  {
  }

  // ---------------------------------------------------------------- spawn locations and pivots

  /** The point lies inside the footprint disc of one of the static actors (cliffs, trees, rocks). */
  predicate InsideStatic(em: EngineMath, statics: seq<StaticActor>, k: nat, x: real, y: real)
    requires k < |statics|
  {
    em.insideDisc(Vec2(x, y), statics[k].position.XY(), statics[k].physicsRadius)
  }

  /** GoldMap::IsValidSpawnLocation: a point is valid iff no static actor's disc contains it. */
  method IsValidSpawnLocation(m: Map, em: EngineMath, x: real, y: real) returns (valid: bool)
    ensures valid <==> forall k :: 0 <= k < |m.staticActors| ==> !InsideStatic(em, m.staticActors, k, x, y)
  {
    var k := 0;
    while k < |m.staticActors|
      invariant 0 <= k <= |m.staticActors|
      invariant forall j :: 0 <= j < k ==> !InsideStatic(em, m.staticActors, j, x, y)
    {
      if em.insideDisc(Vec2(x, y), m.staticActors[k].position.XY(), m.staticActors[k].physicsRadius) {
        assert InsideStatic(em, m.staticActors, k, x, y);
        return false;
      }
      k := k + 1;
    }
    return true;
  }

  /** The weapon pivot of an actor: its weapon height along its up direction, above its position. */
  function Pivoted(em: EngineMath, a: Actor): (r: Actor)
    ensures r.pivot == a.position.Plus(em.upOf(a.orientation).Times(a.definition.weaponHeight))
    ensures r.(pivot := a.pivot) == a
    ensures SameShape(a, r) && Persists(a, r)
  {
    a.(pivot := a.position.Plus(em.upOf(a.orientation).Times(a.definition.weaponHeight)))
  }

  /** One GoldMap::UpdateActorPivotPositions pass on values: every actor's pivot is recomputed. */
  ghost predicate PivotsPassed(em: EngineMath, before: seq<Option<Actor>>, after: seq<Option<Actor>>)
  {
    |after| == |before| &&
    forall k :: 0 <= k < |before| ==> after[k] == (if before[k].Some? then Some(Pivoted(em, before[k].value)) else None)
  }

  /** GoldMap::UpdateActorPivotPositions: every actor's pivot is recomputed; nothing else changes. */
  method UpdateActorPivotPositions(m: Map, em: EngineMath)
    requires m.Valid()
    modifies m`actors
    ensures |m.actors| == old(|m.actors|)
    ensures forall k :: 0 <= k < |m.actors| ==>
      m.actors[k] == (if old(m.actors[k]).Some? then Some(Pivoted(em, old(m.actors[k]).value)) else None)
    ensures PivotsPassed(em, old(m.actors), m.actors)
    ensures m.Valid() && Evolves(old(m.actors), m.actors)
  {
    EvolvesReflexive(m.actors);
    var i := 0;
    while i < |m.actors|
      invariant 0 <= i <= |m.actors| == old(|m.actors|)
      invariant forall k :: 0 <= k < i ==>
        m.actors[k] == (if old(m.actors[k]).Some? then Some(Pivoted(em, old(m.actors[k]).value)) else None)
      invariant forall k :: i <= k < |m.actors| ==> m.actors[k] == old(m.actors[k])
      invariant m.Valid() && Evolves(old(m.actors), m.actors)
    {
      if m.actors[i].Some? {
        ghost var before := m.actors;
        m.SetActor(i, Pivoted(em, m.actors[i].value));
        EvolvesTransitive(old(m.actors), before, m.actors);
      }
      i := i + 1;
    }
  }

  // ---------------------------------------------------------------- the frame

  /**
   * The middle of GoldMap::Update on values, from `before` to `after`: the
   * actor-pair pass (with the pairs `pairs`) gives `collided`, the static
   * pass `pushed`, the map pass `placed`, and the pivots `after`.
   */
  ghost predicate GoldPasses(em: EngineMath, before: seq<Option<Actor>>, after: seq<Option<Actor>>,
                             pairs: seq<(nat, nat)>, collided: seq<Option<Actor>>, pushed: seq<Option<Actor>>,
                             placed: seq<Option<Actor>>, statics: seq<StaticActor>, tiles: seq<Tile>, dims: IntVec2,
                             isGold: bool, goldDims: IntVec2, rolls: (nat, nat) -> real)
  {
    ActorsCollided(em, before, collided, pairs, rolls) && StaticsPassed(em, collided, pushed, statics) &&
    MapPassed(em, pushed, placed, tiles, dims, isGold, goldDims) && PivotsPassed(em, placed, after)
  }

  /**
   * GoldMap::Update: the wave start, the actors' update, the three
   * collision passes, the pivots and the deletion pass, in that order. The
   * waves started by input are placed by `waves`, one roll set per wave;
   * the wave a level-up could start is placed by `levelWave`. The ghost
   * results are the slot arrays between the steps: `started` after the
   * wave start, `updated` at the end of the update log, then the actor-pair
   * pass (with the pairs `pairs`), the static pass, the map pass and the
   * pivots, and the deletion pass runs from `pivoted` with the counters the
   * wave start left. The wave bookkeeping holds after every frame, and no
   * destroyed actor remains.
   */
  method GoldUpdate(m: Map, em: EngineMath, deltaSeconds: real, keyR: bool, vrSelect: bool,
                    rolls: FrameRolls, waves: nat -> WaveRolls, levelWave: WaveRolls)
    returns (ghost started: seq<Option<Actor>>, ghost visited: seq<nat>, ghost states: seq<seq<Option<Actor>>>,
             ghost thoughts: seq<seq<Option<Actor>>>, ghost updated: seq<Option<Actor>>, ghost pairs: seq<(nat, nat)>,
             ghost collided: seq<Option<Actor>>, ghost pushed: seq<Option<Actor>>, ghost placed: seq<Option<Actor>>,
             ghost pivoted: seq<Option<Actor>>)
    requires m.Valid() && GoldStateOk(m)
    modifies m`actors, m`actorSalt, m`ais, m`player, m`remainingEnemies, m`level, m`isCombatMode
    ensures var n := WavesStarted(old(m.isCombatMode), old(m.level), keyR, m.vr && vrSelect);
      WavesPlaced(m.actorDefs, old(m.actors), started, n, old(m.level), waves) &&
      PassState(m, pivoted, if m.player.onMap then Resolve(pivoted, m.player.actorUID) else None, |pivoted|,
                old(m.remainingEnemies) + (if n > 0 then n * WaveSize(old(m.level)) else 0), old(m.level),
                n > 0 || old(m.isCombatMode))
    ensures Logged(started, updated, |updated|, visited, states, thoughts, deltaSeconds, old(|m.spawnPoints|) > 0)
    ensures GoldPasses(em, updated, pivoted, pairs, collided, pushed, placed, m.staticActors, old(m.tiles), old(m.dims),
                       m.isGold, m.goldDims, rolls.collision)
    ensures forall k :: 0 <= k < |m.actors| ==> !IsDestroyed(m.actors[k])
    ensures old(|m.actors|) <= |m.actors|
    ensures GoldStateOk(m) && m.Valid() && Evolves(old(m.actors), m.actors)
  {
    HandleWaveStart(m, keyR, vrSelect, waves);
    started := m.actors;
    visited, states, thoughts, updated, pairs, collided, pushed, placed, pivoted :=
      GoldFrame(m, em, deltaSeconds, keyR, rolls, levelWave);
    EvolvesTransitive(old(m.actors), started, m.actors);
  }

  /** GoldMap::Update after the wave start: the actors' update, the collision passes, the pivots and the deletion pass. */
  method GoldFrame(m: Map, em: EngineMath, deltaSeconds: real, keyR: bool, rolls: FrameRolls, levelWave: WaveRolls)
    returns (ghost visited: seq<nat>, ghost states: seq<seq<Option<Actor>>>, ghost thoughts: seq<seq<Option<Actor>>>,
             ghost updated: seq<Option<Actor>>, ghost pairs: seq<(nat, nat)>, ghost collided: seq<Option<Actor>>,
             ghost pushed: seq<Option<Actor>>, ghost placed: seq<Option<Actor>>, ghost pivoted: seq<Option<Actor>>)
    requires m.Valid() && GoldStateOk(m)
    modifies m`actors, m`actorSalt, m`ais, m`player, m`remainingEnemies, m`level, m`isCombatMode
    ensures PassState(m, pivoted, if m.player.onMap then Resolve(pivoted, m.player.actorUID) else None, |pivoted|,
                      old(m.remainingEnemies), old(m.level), old(m.isCombatMode))
    ensures Logged(old(m.actors), updated, |updated|, visited, states, thoughts, deltaSeconds, old(|m.spawnPoints|) > 0)
    ensures GoldPasses(em, updated, pivoted, pairs, collided, pushed, placed, m.staticActors, old(m.tiles), old(m.dims),
                       m.isGold, m.goldDims, rolls.collision)
    ensures forall k :: 0 <= k < |m.actors| ==> !IsDestroyed(m.actors[k])
    ensures old(|m.actors|) <= |m.actors|
    ensures GoldStateOk(m) && m.Valid() && Evolves(old(m.actors), m.actors)
  {
    visited, states, thoughts := UpdateActors(m, em, deltaSeconds, rolls);
    updated := m.actors;
    pairs, collided, pushed, placed, pivoted := GoldCollideAndDelete(m, em, keyR, rolls.collision, levelWave);
    EvolvesTransitive(old(m.actors), updated, m.actors);
  }

  /** The end of GoldMap::Update: the collision passes and the pivots, then the deletion pass. */
  method GoldCollideAndDelete(m: Map, em: EngineMath, keyR: bool, rolls: (nat, nat) -> real, levelWave: WaveRolls)
    returns (ghost pairs: seq<(nat, nat)>, ghost collided: seq<Option<Actor>>, ghost pushed: seq<Option<Actor>>,
             ghost placed: seq<Option<Actor>>, ghost pivoted: seq<Option<Actor>>)
    requires m.Valid() && GoldStateOk(m)
    modifies m`actors, m`actorSalt, m`ais, m`player, m`remainingEnemies, m`level, m`isCombatMode
    ensures PassState(m, pivoted, if m.player.onMap then Resolve(pivoted, m.player.actorUID) else None, |pivoted|,
                      old(m.remainingEnemies), old(m.level), old(m.isCombatMode))
    ensures GoldPasses(em, old(m.actors), pivoted, pairs, collided, pushed, placed, m.staticActors, old(m.tiles), old(m.dims),
                       m.isGold, m.goldDims, rolls)
    ensures forall k :: 0 <= k < |m.actors| ==> !IsDestroyed(m.actors[k])
    ensures old(|m.actors|) <= |m.actors|
    ensures GoldStateOk(m) && m.Valid() && Evolves(old(m.actors), m.actors)
  {
    pairs, collided, pushed, placed := GoldCollisions(m, em, rolls);
    pivoted := m.actors;
    ghost var p := m.GetActor(PlayerCtl);
    assert p == if m.player.onMap then Resolve(pivoted, m.player.actorUID) else None;
    GoldDeleteDestroyedActors(m, keyR, levelWave);
    EvolvesTransitive(old(m.actors), pivoted, m.actors);
  }

  /**
   * The middle of GoldMap::Update: actor against actor, against the static
   * actors and against the tiles, then the pivot update, each pass on the
   * slots the one before left.
   */
  method GoldCollisions(m: Map, em: EngineMath, rolls: (nat, nat) -> real)
    returns (ghost pairs: seq<(nat, nat)>, ghost collided: seq<Option<Actor>>, ghost pushed: seq<Option<Actor>>,
             ghost placed: seq<Option<Actor>>)
    requires m.Valid()
    modifies m`actors, m`player, m`ais
    ensures GoldPasses(em, old(m.actors), m.actors, pairs, collided, pushed, placed, m.staticActors, m.tiles, m.dims,
                       m.isGold, m.goldDims, rolls)
    ensures m.Valid() && Evolves(old(m.actors), m.actors)
  {
    pairs := CollideActors(m, em, rolls);
    collided := m.actors;
    CollideActorsWithStaticActors(m, em);
    pushed := m.actors;
    CollideActorsWithMap(m, em);
    placed := m.actors;
    UpdateActorPivotPositions(m, em);
    EvolvesTransitive(old(m.actors), collided, pushed);
    EvolvesTransitive(old(m.actors), pushed, placed);
    EvolvesTransitive(old(m.actors), placed, m.actors);
  }
}
