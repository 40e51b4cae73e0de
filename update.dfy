/**
 * Actor::Update and the frame order of Map::Update. An actor's update runs
 * its AI, ends a corpse whose lifetime has run out (respawning the Player's
 * marine), and moves a live actor by one physics step. The actor loop runs
 * over the slot array as it grows during the loop. It terminates because
 * the array grows only when a weapon consumes an elapsed refire period or
 * an expired marine corpse respawns.
 */
module Updates {

  import opened Wrappers
  import opened Geometry
  import opened ActorDefinitions
  import opened Controllers
  import opened Actors
  import opened ActorSlots
  import opened Maps
  import opened Firing
  import opened AIs
  import opened Collisions

  /** The rolls one frame reads: per slot, its AI's fire rolls; and the spawn point a respawn picks. */
  datatype FrameRolls = FrameRolls(fire: nat -> FireRolls, spawnPoint: nat, collision: (nat, nat) -> real)

  /** The physics step of a live actor: UpdatePhysics, then the pitch clamp. */
  function Step(a: Actor, deltaSeconds: real): (r: Actor)
    ensures -85.0 <= r.orientation.pitch <= 85.0
    ensures r.uid == a.uid && r.definition == a.definition && r.health == a.health && r.lifetime == a.lifetime
    ensures SameShape(a, r) && Persists(a, r)
  {
    ClampPitch(UpdatePhysics(a, deltaSeconds))
  }

  /** The corpse's end: marked destroyed, everything else as it was. */
  function Destroyed(a: Actor): (r: Actor)
    ensures r.isDestroyed && r.(isDestroyed := a.isDestroyed) == a
    ensures SameShape(a, r) && Persists(a, r)
  {
    a.(isDestroyed := true)
  }

  /** Whether the actor runs an AI in Actor::Update: it has a controller that is not the Player. */
  predicate RunsAI(a: Actor)
  {
    a.controller.Some? && a.controller.value.AICtl?
  }

  /** An actor whose lifetime has run out and who is the Player's marine: Actor::Update respawns the Player. */
  predicate Respawns(a: Actor)
  {
    a.lifetime.elapsed && a.controller == Some(PlayerCtl) && a.definition.faction == MARINE
  }

  /**
   * Actor::Update after the AI, from the slot array `before` to `after`:
   * an actor whose lifetime has run out is destroyed; a live actor (even a
   * destroyed one) takes one physics step and a dead one does not; the only
   * slot that can be added is the respawned Player's, which happens exactly
   * when the actor respawns and the map has a spawn point.
   */
  predicate LiveStep(before: seq<Option<Actor>>, after: seq<Option<Actor>>, i: nat, deltaSeconds: real,
                     hasSpawnPoint: bool)
    requires i < |before| && before[i].Some?
  {
    var a := before[i].value;
    var b := if a.lifetime.elapsed then Destroyed(a) else a;
    var grows := Respawns(a) && hasSpawnPoint;
    |after| == |before| + (if grows then 1 else 0) &&
    after[..|before|] == before[i := Some(if a.isDead then b else Step(b, deltaSeconds))] &&
    (grows ==> after[|before|].Some? && after[|before|].value.controller == Some(PlayerCtl))
  }

  /**
   * The AI step of Actor::Update, from `before` to `thought`: the slots
   * only evolve, no slot is emptied or changes controller, no lifetime
   * starts running out, and an actor without an AI changes nothing.
   */
  predicate ThoughtStep(before: seq<Option<Actor>>, thought: seq<Option<Actor>>, i: nat)
    requires i < |before| && before[i].Some?
  {
    Evolves(before, thought) && SlotsKept(before, thought) &&
    thought[i].Some? && (Expired(thought[i]) ==> Expired(before[i])) &&
    (!RunsAI(before[i].value) ==> thought == before)
  }

  /**
   * Actor::Update for slot i, from `before` through `thought` (after the
   * AI) to `after`: a destroyed actor changes nothing; any other runs the
   * AI step, then the lifetime check and the physics step.
   */
  predicate UpdateStep(before: seq<Option<Actor>>, thought: seq<Option<Actor>>, after: seq<Option<Actor>>, i: nat,
                       deltaSeconds: real, hasSpawnPoint: bool)
    requires i < |before| && before[i].Some?
  {
    if before[i].value.isDestroyed then thought == before && after == before
    else ThoughtStep(before, thought, i) && LiveStep(thought, after, i, deltaSeconds, hasSpawnPoint)
  }

  /** The step of Actor::Update after the AI: the lifetime check, with the Player's respawn. */
  method Expire(m: Map, em: EngineMath, i: nat, spawnRoll: nat)
    requires m.Valid() && i < |m.actors| && m.actors[i].Some?
    modifies m`actors, m`actorSalt, m`ais, m`player
    ensures !old(m.actors[i].value.lifetime.elapsed) ==>
      m.actors == old(m.actors) && m.actorSalt == old(m.actorSalt) && m.ais == old(m.ais) && m.player == old(m.player)
    ensures old(|m.actors|) <= |m.actors|
    ensures old(m.actors[i].value.lifetime.elapsed) ==>
      m.actors[..old(|m.actors|)] == old(m.actors)[i := Some(Destroyed(old(m.actors[i].value)))]
    ensures |m.actors| > old(|m.actors|) ==>
      old(m.actors[i].value.lifetime.elapsed) && old(m.actors[i].value.controller) == Some(PlayerCtl) &&
      old(m.actors[i].value.definition.faction) == MARINE && |m.actors| == old(|m.actors|) + 1 &&
      m.actors[old(|m.actors|)].Some? && m.actors[old(|m.actors|)].value.controller == Some(PlayerCtl) &&
      m.player.actorUID == m.actors[old(|m.actors|)].value.uid
    ensures Respawns(old(m.actors[i].value)) && |m.spawnPoints| > 0 ==>
      |m.actors| == old(|m.actors|) + 1 &&
      m.actors[old(|m.actors|)].Some? && m.actors[old(|m.actors|)].value.controller == Some(PlayerCtl) &&
      m.actors[old(|m.actors|)].value.definition == LookupActorDefinition(m.actorDefs, "Soldier") &&
      m.actors[old(|m.actors|)].value.position == m.spawnPoints[spawnRoll % |m.spawnPoints|].position
    ensures !Respawns(old(m.actors[i].value)) || |m.spawnPoints| == 0 ==> |m.actors| == old(|m.actors|)
    ensures m.Valid() && Evolves(old(m.actors), m.actors) && ShapesKept(old(m.actors), m.actors)
  {
    EvolvesReflexive(m.actors);
    var a := m.actors[i].value;
    if !a.lifetime.elapsed {
      return;
    }
    m.SetActor(i, Destroyed(a));
    ghost var destroyed := m.actors;
    UpdateShapesKept(old(m.actors), i, Destroyed(a));
    if a.controller == Some(PlayerCtl) && a.definition.faction == MARINE {
      var _ := m.SpawnPlayer(em, spawnRoll);
      assert forall k :: 0 <= k < |destroyed| ==> m.actors[k] == destroyed[k] by {
        assert m.actors[..|destroyed|] == destroyed;
      }
      EvolvesTransitive(old(m.actors), destroyed, m.actors);
    }
  }

  /**
   * Actor::Update for the actor in slot i. A destroyed actor does nothing.
   * An AI-run actor first runs its AI. A corpse whose lifetime has run out
   * is destroyed, and the Player's marine respawns. A dead actor stops
   * there; a live one takes one physics step.
   */
  method UpdateActor(m: Map, em: EngineMath, i: nat, deltaSeconds: real, rolls: FrameRolls)
    returns (ghost thought: seq<Option<Actor>>)
    requires m.Valid() && i < |m.actors| && m.actors[i].Some?
    modifies m`actors, m`actorSalt, m`ais, m`player
    ensures UpdateStep(old(m.actors), thought, m.actors, i, deltaSeconds, |m.spawnPoints| > 0)
    ensures old(m.actors[i].value.isDestroyed) ==>
      m.actors == old(m.actors) && m.actorSalt == old(m.actorSalt) && m.ais == old(m.ais) && m.player == old(m.player)
    ensures var a := old(m.actors[i].value);
      !a.isDestroyed && !RunsAI(a) && !a.lifetime.elapsed ==>
        m.actors == old(m.actors)[i := Some(if a.isDead then a else Step(a, deltaSeconds))] &&
        m.actorSalt == old(m.actorSalt) && m.ais == old(m.ais) && m.player == old(m.player)
    ensures old(|m.actors|) <= |m.actors| && m.actors[i].Some?
    ensures |m.actors| > old(|m.actors|) ==>
      TotalPending(m.actors) < old(TotalPending(m.actors)) || Expired(old(m.actors[i]))
    ensures m.Valid() && Evolves(old(m.actors), m.actors) && SlotsKept(old(m.actors), m.actors)
  {
    EvolvesReflexive(m.actors);
    thought := m.actors;
    var a := m.actors[i].value;
    if a.isDestroyed {
      return;
    }
    Think(m, em, i, deltaSeconds, rolls.fire(i));
    thought := m.actors;
    Live(m, em, i, deltaSeconds, rolls.spawnPoint);
    EvolvesTransitive(old(m.actors), thought, m.actors);
    SlotsKeptTransitive(old(m.actors), thought, m.actors);
    EvolvesPending(thought, m.actors);
  }

  /** The AI step of Actor::Update: an actor with an AI controller runs its AI; any other does nothing here. */
  method Think(m: Map, em: EngineMath, i: nat, deltaSeconds: real, rolls: FireRolls)
    requires m.Valid() && i < |m.actors| && m.actors[i].Some?
    modifies m`actors, m`actorSalt, m`ais, m`player
    ensures !RunsAI(old(m.actors[i].value)) ==>
      m.actors == old(m.actors) && m.actorSalt == old(m.actorSalt) && m.ais == old(m.ais) && m.player == old(m.player)
    ensures old(|m.actors|) <= |m.actors| && m.actors[i].Some?
    ensures Expired(m.actors[i]) ==> Expired(old(m.actors[i]))
    ensures |m.actors| > old(|m.actors|) ==> TotalPending(m.actors) < old(TotalPending(m.actors))
    ensures m.Valid() && Evolves(old(m.actors), m.actors) && SlotsKept(old(m.actors), m.actors)
    ensures ThoughtStep(old(m.actors), m.actors, i)
  {
    EvolvesReflexive(m.actors);
    var a := m.actors[i].value;
    if RunsAI(a) {
      var _ := UpdateAI(m, em, a.controller.value.index, deltaSeconds, rolls);
      assert SlotEvolves(old(m.actors)[i], m.actors[i]);
    }
  }

  /** Actor::Update after the AI has run: the lifetime check, then the physics step of a live actor. */
  method Live(m: Map, em: EngineMath, i: nat, deltaSeconds: real, spawnRoll: nat)
    requires m.Valid() && i < |m.actors| && m.actors[i].Some?
    modifies m`actors, m`actorSalt, m`ais, m`player
    ensures var a := old(m.actors[i].value);
      !a.lifetime.elapsed ==>
        m.actors == old(m.actors)[i := Some(if a.isDead then a else Step(a, deltaSeconds))] &&
        m.actorSalt == old(m.actorSalt) && m.ais == old(m.ais) && m.player == old(m.player)
    ensures old(|m.actors|) <= |m.actors| && m.actors[i].Some?
    ensures Expired(old(m.actors[i])) ==> m.actors[i].value.isDestroyed
    ensures |m.actors| > old(|m.actors|) ==> Expired(old(m.actors[i]))
    ensures LiveStep(old(m.actors), m.actors, i, deltaSeconds, |m.spawnPoints| > 0)
    ensures m.Valid() && Evolves(old(m.actors), m.actors) && SlotsKept(old(m.actors), m.actors)
  {
    EvolvesReflexive(m.actors);
    ghost var a := m.actors[i].value;
    ghost var n := |m.actors|;
    ghost var destroyed := if a.lifetime.elapsed then Destroyed(a) else a;
    Expire(m, em, i, spawnRoll);
    ghost var expired := m.actors;
    assert expired[..n] == old(m.actors)[i := Some(destroyed)];
    assert expired[i] == expired[..n][i];
    ShapesKeptSlotsKept(old(m.actors), expired);
    if !m.actors[i].value.isDead {
      var b := m.actors[i].value;
      m.SetActor(i, Step(b, deltaSeconds));
      assert m.actors[..n] == expired[..n][i := Some(Step(b, deltaSeconds))];
      UpdateShapesKept(expired, i, Step(b, deltaSeconds));
      ShapesKeptSlotsKept(expired, m.actors);
      SlotsKeptTransitive(old(m.actors), expired, m.actors);
      EvolvesTransitive(old(m.actors), expired, m.actors);
    }
    assert LiveStep(old(m.actors), m.actors, i, deltaSeconds, |m.spawnPoints| > 0);
  }

  /** The expiring count from `from` splits into slot `from` and the rest. */
  lemma ExpiringSplit(s: seq<Option<Actor>>, from: nat)
    requires from < |s|
    ensures Expiring(s, from) == (if Expired(s[from]) then 1 else 0) + Expiring(s, from + 1)
  {
  }

  /**
   * Map::UpdateActors: Actor::Update for every occupied slot, in slot order,
   * including the slots appended while the loop runs. The loop ends: each
   * append consumes an elapsed refire period or follows the expiry of the
   * slot being updated, and neither comes back within the frame.
   */
  method UpdateActors(m: Map, em: EngineMath, deltaSeconds: real, rolls: FrameRolls)
    returns (ghost visited: seq<nat>, ghost states: seq<seq<Option<Actor>>>, ghost thoughts: seq<seq<Option<Actor>>>)
    requires m.Valid()
    modifies m`actors, m`actorSalt, m`ais, m`player
    ensures old(|m.actors|) <= |m.actors|
    ensures TotalPending(m.actors) <= old(TotalPending(m.actors))
    ensures UpdateLog(visited, states, thoughts, deltaSeconds, |m.spawnPoints| > 0)
    ensures states[0] == old(m.actors) && states[|visited|] == m.actors
    ensures forall x, y :: 0 <= x < y < |visited| ==> visited[x] < visited[y]
    ensures forall k :: 0 <= k < |m.actors| ==> (k in visited <==> m.actors[k].Some?)
    ensures Logged(old(m.actors), m.actors, |m.actors|, visited, states, thoughts, deltaSeconds, |m.spawnPoints| > 0)
    ensures m.Valid() && Evolves(old(m.actors), m.actors) && SlotsKept(old(m.actors), m.actors)
  {
    EvolvesReflexive(m.actors);
    visited, states, thoughts := [], [m.actors], [];
    var i := 0;
    while i < |m.actors|
      invariant 0 <= i <= |m.actors|
      invariant m.Valid() && Evolves(old(m.actors), m.actors) && SlotsKept(old(m.actors), m.actors)
      invariant Logged(old(m.actors), m.actors, i, visited, states, thoughts, deltaSeconds, |m.spawnPoints| > 0)
      decreases TotalPending(m.actors), Expiring(m.actors, i), |m.actors| - i
    {
      visited, states, thoughts := UpdateSlot(m, em, i, deltaSeconds, rolls, old(m.actors), visited, states, thoughts);
      i := i + 1;
    }
    EvolvesPending(old(m.actors), m.actors);
  }

  /** The loop of Map::UpdateActors moves on: fewer pending refires, fewer expiring slots ahead, or no growth. */
  predicate Progress(before: seq<Option<Actor>>, after: seq<Option<Actor>>, i: nat)
  {
    TotalPending(after) < TotalPending(before) ||
    (TotalPending(after) == TotalPending(before) &&
     (Expiring(after, i + 1) < Expiring(before, i) || (Expiring(after, i + 1) <= Expiring(before, i) && |after| == |before|)))
  }

  /** An update of slot i that grows the array only by consuming a refire period or after an expiry makes progress. */
  lemma VisitProgress(before: seq<Option<Actor>>, after: seq<Option<Actor>>, i: nat)
    requires i < |before| && Evolves(before, after)
    requires |after| > |before| ==> TotalPending(after) < TotalPending(before) || Expired(before[i])
    ensures Progress(before, after, i)
  {
    EvolvesPending(before, after);
    EvolvesExpiring(before, after, i + 1);
    ExpiringSplit(before, i);
  }

  /** One pass of Map::UpdateActors' loop: slot i, when occupied, is updated and logged. */
  method UpdateSlot(m: Map, em: EngineMath, i: nat, deltaSeconds: real, rolls: FrameRolls, ghost start: seq<Option<Actor>>,
                    ghost visited: seq<nat>, ghost states: seq<seq<Option<Actor>>>, ghost thoughts: seq<seq<Option<Actor>>>)
    returns (ghost visited': seq<nat>, ghost states': seq<seq<Option<Actor>>>, ghost thoughts': seq<seq<Option<Actor>>>)
    requires m.Valid() && i < |m.actors| && Evolves(start, m.actors) && SlotsKept(start, m.actors)
    requires Logged(start, m.actors, i, visited, states, thoughts, deltaSeconds, |m.spawnPoints| > 0)
    modifies m`actors, m`actorSalt, m`ais, m`player
    ensures m.Valid() && Evolves(start, m.actors) && SlotsKept(start, m.actors)
    ensures Logged(start, m.actors, i + 1, visited', states', thoughts', deltaSeconds, |m.spawnPoints| > 0)
    ensures Progress(old(m.actors), m.actors, i)
  {
    visited', states', thoughts' := visited, states, thoughts;
    if m.actors[i].Some? {
      ghost var before := m.actors;
      ghost var thought := VisitActor(m, em, i, deltaSeconds, rolls);
      EvolvesTransitive(start, before, m.actors);
      SlotsKeptTransitive(start, before, m.actors);
      LogVisit(start, before, m.actors, i, visited, states, thoughts, thought, deltaSeconds, |m.spawnPoints| > 0);
      visited', states', thoughts' := visited + [i], states + [m.actors], thoughts + [thought];
    } else {
      ExpiringSplit(m.actors, i);
    }
  }

  /** UpdateActor, in the terms UpdateActors' loop needs. */
  method VisitActor(m: Map, em: EngineMath, i: nat, deltaSeconds: real, rolls: FrameRolls)
    returns (ghost thought: seq<Option<Actor>>)
    requires m.Valid() && i < |m.actors| && m.actors[i].Some?
    modifies m`actors, m`actorSalt, m`ais, m`player
    ensures UpdateStep(old(m.actors), thought, m.actors, i, deltaSeconds, |m.spawnPoints| > 0)
    ensures Progress(old(m.actors), m.actors, i)
    ensures m.Valid() && Evolves(old(m.actors), m.actors) && SlotsKept(old(m.actors), m.actors)
  {
    thought := UpdateActor(m, em, i, deltaSeconds, rolls);
    VisitProgress(old(m.actors), m.actors, i);
  }

  /**
   * The log of Map::UpdateActors after the slots before i: it runs from
   * `start` to `actors`, visits slots in increasing order, and has visited
   * exactly the slots below i that hold an actor.
   */
  ghost predicate Logged(start: seq<Option<Actor>>, actors: seq<Option<Actor>>, i: nat, visited: seq<nat>,
                         states: seq<seq<Option<Actor>>>, thoughts: seq<seq<Option<Actor>>>,
                         deltaSeconds: real, hasSpawnPoint: bool)
  {
    UpdateLog(visited, states, thoughts, deltaSeconds, hasSpawnPoint) &&
    states[0] == start && states[|visited|] == actors && i <= |actors| &&
    (forall x :: 0 <= x < |visited| ==> visited[x] < i) &&
    (forall x, y :: 0 <= x < y < |visited| ==> visited[x] < visited[y]) &&
    (forall k :: 0 <= k < i ==> (k in visited <==> actors[k].Some?))
  }

  /** Visiting an occupied slot i extends the log. */
  lemma LogVisit(start: seq<Option<Actor>>, before: seq<Option<Actor>>, after: seq<Option<Actor>>, i: nat,
                 visited: seq<nat>, states: seq<seq<Option<Actor>>>, thoughts: seq<seq<Option<Actor>>>,
                 thought: seq<Option<Actor>>, deltaSeconds: real, hasSpawnPoint: bool)
    requires Logged(start, before, i, visited, states, thoughts, deltaSeconds, hasSpawnPoint)
    requires i < |before| && before[i].Some?
    requires UpdateStep(before, thought, after, i, deltaSeconds, hasSpawnPoint)
    requires Evolves(before, after) && SlotsKept(before, after)
    ensures Logged(start, after, i + 1, visited + [i], states + [after], thoughts + [thought], deltaSeconds, hasSpawnPoint)
  {
    OccupancyKept(before, after);
    LogStep(visited, states, thoughts, deltaSeconds, hasSpawnPoint, i, thought, after);
    assert (states + [after])[0] == start;
  }

  /**
   * The log of Map::UpdateActors: states[x] is the slot array when the x-th
   * visited slot, visited[x], is reached; it holds an actor then, and
   * Actor::Update for it leads, through thoughts[x], to states[x + 1].
   */
  ghost predicate UpdateLog(visited: seq<nat>, states: seq<seq<Option<Actor>>>, thoughts: seq<seq<Option<Actor>>>,
                            deltaSeconds: real, hasSpawnPoint: bool)
  {
    |states| == |visited| + 1 && |thoughts| == |visited| &&
    forall x :: 0 <= x < |visited| ==>
      visited[x] < |states[x]| && states[x][visited[x]].Some? &&
      UpdateStep(states[x], thoughts[x], states[x + 1], visited[x], deltaSeconds, hasSpawnPoint)
  }

  /** One more visited slot extends the log. */
  lemma LogStep(visited: seq<nat>, states: seq<seq<Option<Actor>>>, thoughts: seq<seq<Option<Actor>>>,
                deltaSeconds: real, hasSpawnPoint: bool, i: nat, thought: seq<Option<Actor>>, after: seq<Option<Actor>>)
    requires UpdateLog(visited, states, thoughts, deltaSeconds, hasSpawnPoint)
    requires i < |states[|visited|]| && states[|visited|][i].Some?
    requires UpdateStep(states[|visited|], thought, after, i, deltaSeconds, hasSpawnPoint)
    ensures UpdateLog(visited + [i], states + [after], thoughts + [thought], deltaSeconds, hasSpawnPoint)
  {
    var v: seq<nat>, s: seq<seq<Option<Actor>>>, t: seq<seq<Option<Actor>>> :=
      visited + [i], states + [after], thoughts + [thought];
    forall x | 0 <= x < |v|
      ensures v[x] < |s[x]| && s[x][v[x]].Some? && UpdateStep(s[x], t[x], s[x + 1], v[x], deltaSeconds, hasSpawnPoint)
    {
      assert s[x] == states[x] && s[x + 1] == (if x < |visited| then states[x + 1] else after);
    }
  }

  /** Within a frame a slot that holds an actor keeps one, and an empty slot stays empty. */
  lemma OccupancyKept(before: seq<Option<Actor>>, after: seq<Option<Actor>>)
    requires Evolves(before, after) && SlotsKept(before, after)
    ensures forall k :: 0 <= k < |before| ==> (after[k].Some? <==> before[k].Some?)
  {
    forall k | 0 <= k < |before|
      ensures after[k].Some? <==> before[k].Some?
    {
      assert SlotEvolves(before[k], after[k]);
    }
  }

  /** Map::DeleteDestroyedActors on values: every destroyed actor's slot is emptied; nothing else changes. */
  ghost predicate DestroyedCleared(before: seq<Option<Actor>>, after: seq<Option<Actor>>)
  {
    |after| == |before| &&
    forall k :: 0 <= k < |before| ==>
      after[k] == (if before[k].Some? && before[k].value.isDestroyed then None else before[k])
  }

  /**
   * Map::Update: the actors update, collide with each other and with the
   * tile map, and the destroyed ones are deleted, in that order. The ghost
   * results are the slot arrays between the steps: `updated` ends the
   * update log, `collided` is the actor-pair pass on it with the pairs
   * `pairs`, `placed` is the map pass on that, and the final array is the
   * deletion pass on `placed`; no destroyed actor remains in any slot.
   */
  method UpdateMap(m: Map, em: EngineMath, deltaSeconds: real, rolls: FrameRolls)
    returns (ghost visited: seq<nat>, ghost states: seq<seq<Option<Actor>>>, ghost thoughts: seq<seq<Option<Actor>>>,
             ghost pairs: seq<(nat, nat)>, ghost updated: seq<Option<Actor>>, ghost collided: seq<Option<Actor>>,
             ghost placed: seq<Option<Actor>>)
    requires m.Valid()
    modifies m`actors, m`actorSalt, m`ais, m`player
    ensures Logged(old(m.actors), updated, |updated|, visited, states, thoughts, deltaSeconds, |m.spawnPoints| > 0)
    ensures ActorsCollided(em, updated, collided, pairs, rolls.collision)
    ensures MapPassed(em, collided, placed, m.tiles, m.dims, m.isGold, m.goldDims)
    ensures DestroyedCleared(placed, m.actors)
    ensures old(|m.actors|) <= |m.actors|
    ensures forall k :: 0 <= k < |m.actors| && m.actors[k].Some? ==> !m.actors[k].value.isDestroyed
    ensures m.Valid() && Evolves(old(m.actors), m.actors)
  {
    visited, states, thoughts := UpdateActors(m, em, deltaSeconds, rolls);
    updated := m.actors;
    pairs, collided, placed := CollideAndDelete(m, em, rolls.collision);
    EvolvesTransitive(old(m.actors), updated, m.actors);
  }

  /** The second half of Map::Update: the actor-pair pass, the map pass and the deletion pass. */
  method CollideAndDelete(m: Map, em: EngineMath, rolls: (nat, nat) -> real)
    returns (ghost pairs: seq<(nat, nat)>, ghost collided: seq<Option<Actor>>, ghost placed: seq<Option<Actor>>)
    requires m.Valid()
    modifies m`actors, m`ais, m`player
    ensures ActorsCollided(em, old(m.actors), collided, pairs, rolls)
    ensures MapPassed(em, collided, placed, m.tiles, m.dims, m.isGold, m.goldDims)
    ensures DestroyedCleared(placed, m.actors)
    ensures old(|m.actors|) == |m.actors|
    ensures forall k :: 0 <= k < |m.actors| && m.actors[k].Some? ==> !m.actors[k].value.isDestroyed
    ensures m.Valid() && Evolves(old(m.actors), m.actors)
  {
    pairs := CollideActors(m, em, rolls);
    collided := m.actors;
    CollideActorsWithMap(m, em);
    placed := m.actors;
    m.DeleteDestroyedActors();
    EvolvesTransitive(old(m.actors), collided, placed);
    EvolvesTransitive(old(m.actors), placed, m.actors);
  }
}
