/**
 * The three notifications a Controller receives (DamagedBy, KilledBy,
 * Killed), dispatched on the controller's dynamic type: the AI retargets
 * when damaged and ignores the rest; the Player keeps its kill and death
 * counts and finishes off actors. An Actor pointer argument is a slot index
 * of the map, None for null.
 */
module ControllerEvents {

  import opened Wrappers
  import opened ActorUIDs
  import opened Actors
  import opened Controllers
  import opened ActorSlots
  import opened Maps

  /** Actor::Die on the actor in slot i (the state part). */
  method KillSlot(m: Map, i: nat)
    requires m.Valid() && i < |m.actors| && m.actors[i].Some?
    modifies m`actors
    ensures m.actors == old(m.actors)[i := Some(Die(old(m.actors[i].value)))]
    ensures old(m.actors[i].value.isDead) ==> m.actors == old(m.actors)
    ensures m.Valid() && Evolves(old(m.actors), m.actors)
  {
    DieIdempotent(m.actors[i].value);
    m.SetActor(i, Die(m.actors[i].value));
  }

  /** Player::Killed: a kill is counted only when the victim is player-controlled; the victim dies either way. */
  method PlayerKilled(m: Map, victim: nat)
    requires m.Valid() && victim < |m.actors| && m.actors[victim].Some?
    modifies m`actors, m`player
    ensures m.player == old(m.player).(kills := old(m.player.kills) +
                                        if old(m.actors[victim].value.controller) == Some(PlayerCtl) then 1 else 0)
    ensures m.actors == old(m.actors)[victim := Some(Die(old(m.actors[victim].value)))]
    ensures m.Valid() && Evolves(old(m.actors), m.actors)
  {
    if m.actors[victim].value.controller == Some(PlayerCtl) {
      m.player := m.player.(kills := m.player.kills + 1);
    }
    KillSlot(m, victim);
  }

  /** Player::KilledBy: one more death, and the possessed actor dies if its handle still resolves. */
  method PlayerKilledBy(m: Map)
    requires m.Valid()
    modifies m`actors, m`player
    ensures m.player == old(m.player).(deaths := old(m.player.deaths) + 1)
    ensures old(m.GetActorByUID(m.player.actorUID)).None? ==> m.actors == old(m.actors)
    ensures old(m.GetActorByUID(m.player.actorUID)).Some? ==>
      var p := old(m.GetActorByUID(m.player.actorUID)).value;
      m.actors == old(m.actors)[p := Some(Die(old(m.actors[p].value)))]
    ensures m.Valid() && Evolves(old(m.actors), m.actors)
  {
    m.player := m.player.(deaths := m.player.deaths + 1);
    var possessed := m.GetActorByUID(m.player.actorUID);
    if possessed.Some? {
      KillSlot(m, possessed.value);
    }
  }

  /** Controller::Killed, by dynamic type: AI::Killed does nothing. */
  method Killed(m: Map, c: CtlRef, victim: nat)
    requires m.Valid() && m.CtlExists(c) && victim < |m.actors| && m.actors[victim].Some?
    modifies m`actors, m`player
    ensures c.AICtl? ==> m.actors == old(m.actors) && m.player == old(m.player)
    ensures c.PlayerCtl? ==>
      m.player == old(m.player).(kills := old(m.player.kills) +
                                  if old(m.actors[victim].value.controller) == Some(PlayerCtl) then 1 else 0) &&
      m.actors == old(m.actors)[victim := Some(Die(old(m.actors[victim].value)))]
    ensures m.Valid() && Evolves(old(m.actors), m.actors)
  {
    if c.PlayerCtl? {
      PlayerKilled(m, victim);
    }
  }

  /** Controller::KilledBy, by dynamic type: AI::KilledBy does nothing. */
  method KilledBy(m: Map, c: CtlRef)
    requires m.Valid() && m.CtlExists(c)
    modifies m`actors, m`player
    ensures c.AICtl? ==> m.actors == old(m.actors) && m.player == old(m.player)
    ensures c.PlayerCtl? ==> m.player == old(m.player).(deaths := old(m.player.deaths) + 1)
    ensures m.Valid() && Evolves(old(m.actors), m.actors)
  {
    if c.PlayerCtl? {
      PlayerKilledBy(m);
    }
  }

  /** The controllers a DamagedBy call can change: the AI controllers and the Player. */
  datatype Listeners = Listeners(ais: seq<AIController>, player: PlayerController)

  /**
   * The Player after Player::DamagedBy(attacker) over the slot array s:
   * once its possessed actor resolves and is dead, one more death, and one
   * more kill when the attacker is run by the Player too; otherwise, or
   * without an attacker, as it was.
   */
  function PlayerHeard(s: seq<Option<Actor>>, player: PlayerController, attacker: Option<nat>): (r: PlayerController)
    requires attacker.Some? ==> attacker.value < |s| && s[attacker.value].Some?
    ensures r.(deaths := player.deaths, kills := player.kills) == player
    ensures var p := Resolve(s, player.actorUID);
      r.deaths == player.deaths + 1 <==> attacker.Some? && p.Some? && s[p.value].value.isDead
    ensures r.deaths == player.deaths ==> r == player
    ensures r.kills != player.kills ==>
      attacker.Some? && r.kills == player.kills + 1 && s[attacker.value].value.controller == Some(PlayerCtl)
  {
    var p := Resolve(s, player.actorUID);
    if attacker.None? || p.None? || !s[p.value].value.isDead then player
    else
      var selfKill := s[attacker.value].value.controller == Some(PlayerCtl) && s[p.value].value.controller == Some(PlayerCtl);
      player.(deaths := player.deaths + 1, kills := player.kills + if selfKill then 1 else 0)
  }

  /**
   * The controllers after Controller::DamagedBy(attacker) on the controller
   * c, if there is one, over the slot array s: an AI makes the attacker its
   * target and nothing else changes; the Player is as PlayerHeard says; no
   * controller hears nothing.
   */
  function Notified(s: seq<Option<Actor>>, l: Listeners, c: Option<CtlRef>, attacker: nat): (r: Listeners)
    requires attacker < |s| && s[attacker].Some?
    requires c.Some? && c.value.AICtl? ==> c.value.index < |l.ais|
    ensures |r.ais| == |l.ais|
    ensures forall k :: 0 <= k < |l.ais| && c != Some(AICtl(k)) ==> r.ais[k] == l.ais[k]
    ensures c.Some? && c.value.AICtl? ==>
      r.ais[c.value.index] == l.ais[c.value.index].(targetUID := s[attacker].value.uid) && r.player == l.player
    ensures c != Some(PlayerCtl) ==> r.player == l.player
    ensures c == Some(PlayerCtl) ==> r.ais == l.ais && r.player == PlayerHeard(s, l.player, Some(attacker))
    ensures c.None? ==> r == l
  {
    match c
    case None => l
    case Some(AICtl(k)) => l.(ais := l.ais[k := l.ais[k].(targetUID := s[attacker].value.uid)])
    case Some(PlayerCtl) => l.(player := PlayerHeard(s, l.player, Some(attacker)))
  }

  /**
   * Player::DamagedBy: nothing without an attacker or when the possessed
   * actor's handle no longer resolves, nor while it is still alive. Once it
   * is dead, the Player records a death and the attacker's controller, if
   * any, is told of the kill; a kill is counted when that controller is the
   * Player itself. No actor changes: the possessed actor is already dead.
   */
  method PlayerDamagedBy(m: Map, attacker: Option<nat>)
    requires m.Valid()
    requires attacker.Some? ==> attacker.value < |m.actors| && m.actors[attacker.value].Some?
    modifies m`actors, m`player
    ensures m.actors == old(m.actors)
    ensures var p := old(m.GetActorByUID(m.player.actorUID));
      if attacker.None? || p.None? || !old(m.actors[p.value].value.isDead) then m.player == old(m.player)
      else
        var killerCtl := old(m.actors[attacker.value].value.controller);
        var selfKill := killerCtl == Some(PlayerCtl) && old(m.actors[p.value].value.controller) == Some(PlayerCtl);
        m.player == old(m.player).(deaths := old(m.player.deaths) + 1,
                                   kills := old(m.player.kills) + if selfKill then 1 else 0)
    ensures m.player == PlayerHeard(old(m.actors), old(m.player), attacker)
    ensures m.Valid()
  {
    if attacker.None? {
      return;
    }
    var possessed := m.GetActorByUID(m.player.actorUID);
    if possessed.None? {
      return;
    }
    var p := possessed.value;
    if m.actors[p].value.isDead {
      PlayerKilledBy(m);
      var killerCtl := m.actors[attacker.value].value.controller;
      if killerCtl.Some? {
        Killed(m, killerCtl.value, p);
      }
    }
  }

  /**
   * Controller::DamagedBy, by dynamic type. AI::DamagedBy makes the attacker
   * its target unconditionally (it dereferences the attacker, so an AI
   * needs one); Player::DamagedBy is above.
   */
  method DamagedBy(m: Map, c: CtlRef, attacker: Option<nat>)
    requires m.Valid() && m.CtlExists(c)
    requires attacker.Some? ==> attacker.value < |m.actors| && m.actors[attacker.value].Some?
    requires c.AICtl? ==> attacker.Some?
    modifies m`actors, m`player, m`ais
    ensures m.actors == old(m.actors)
    ensures c.AICtl? ==>
      m.ais == old(m.ais)[c.index := old(m.ais[c.index]).(targetUID := old(m.actors[attacker.value].value.uid))] &&
      m.player == old(m.player)
    ensures c.PlayerCtl? ==> m.ais == old(m.ais)
    ensures c.PlayerCtl? && (attacker.None? || old(m.GetActorByUID(m.player.actorUID)).None?) ==> m.player == old(m.player)
    ensures c.PlayerCtl? && attacker.Some? && old(m.GetActorByUID(m.player.actorUID)).Some? ==>
      var p := old(m.GetActorByUID(m.player.actorUID)).value;
      (!old(m.actors[p].value.isDead) ==> m.player == old(m.player)) &&
      (old(m.actors[p].value.isDead) ==> m.player.deaths == old(m.player.deaths) + 1)
    ensures c.PlayerCtl? ==> m.player == PlayerHeard(old(m.actors), old(m.player), attacker)
    ensures attacker.Some? ==>
      Listeners(m.ais, m.player) == Notified(old(m.actors), Listeners(old(m.ais), old(m.player)), Some(c), attacker.value)
    ensures m.Valid()
  {
    match c {
      case AICtl(k) =>
        m.ais := m.ais[k := m.ais[k].(targetUID := m.actors[attacker.value].value.uid)];
      case PlayerCtl =>
        PlayerDamagedBy(m, attacker);
    }
  }
}
