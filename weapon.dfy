/**
 * Weapon: a weapon instance held by an actor. Its refire Stopwatch is
 * modelled by `pending`, the number of whole refire periods that have elapsed
 * and not yet been consumed; the clock that advances it is outside the model.
 * `onMap` stands for the weapon's map pointer (there is one map).
 * Firing itself changes the map and is modelled with it.
 */
module Weapons {

  import opened ActorUIDs
  import opened Geometry
  import opened WeaponDefinitions

  datatype Weapon = Weapon(definition: WeaponDefinition, onMap: bool, ownerUID: ActorUID, pending: nat)

  /** Weapon(definition): no map, no owner, a timer that has not been started. */
  function NewWeapon(d: WeaponDefinition): (w: Weapon)
    ensures w.definition == d && !w.onMap && w.ownerUID == ActorUID.INVALID && w.pending == 0
  {
    Weapon(d, false, ActorUID.INVALID, 0)
  }

  /** OnEquipped: takes the owner's map and UID, and restarts the refire timer. */
  function OnEquipped(w: Weapon, owner: ActorUID): (r: Weapon)
    ensures r.onMap && r.ownerUID == owner
    ensures r.pending == 0
    ensures r.definition == w.definition
  {
    w.(onMap := true, ownerUID := owner, pending := 0)
  }

  /**
   * Stopwatch::DecrementDurationIfElapsed on the refire timer: when a period
   * has elapsed, consume it and report true.
   */
  function DecrementIfElapsed(w: Weapon): (r: (bool, Weapon))
    ensures r.0 <==> w.pending > 0
    ensures r.0 ==> r.1 == w.(pending := w.pending - 1)
    ensures !r.0 ==> r.1 == w
  {
    if w.pending > 0 then (true, w.(pending := w.pending - 1)) else (false, w)
  }

  /**
   * The drain loop after a shot: the refire timer is decremented while a
   * whole period has elapsed, so one call to Fire shoots at most once
   * whatever the time step was.
   */
  method DrainElapsed(w: Weapon) returns (r: Weapon)
    ensures r.pending == 0
    ensures r == w.(pending := 0)
  {
    r := w;
    var elapsed := true;
    while elapsed
      invariant r == w.(pending := r.pending)
      invariant !elapsed ==> r.pending == 0
      decreases r.pending, elapsed
    {
      var step := DecrementIfElapsed(r);
      elapsed := step.0;
      r := step.1;
    }
  }

  /**
   * GetRange: a projectile weapon reaches FLT_MAX, else a ray weapon its
   * ray range, else the melee range.
   */
  function GetRange(d: WeaponDefinition): (range: real)
    ensures d.projectileCount != 0 ==> range == FLT_MAX
    ensures d.projectileCount == 0 && d.rayCount != 0 ==> range == d.rayRange
    ensures d.projectileCount == 0 && d.rayCount == 0 ==> range == d.meleeRange
  {
    if d.projectileCount != 0 then FLT_MAX
    else if d.rayCount != 0 then d.rayRange
    else d.meleeRange
  }

  /** The elapsed, unconsumed refire periods of a list of weapons. */
  function PendingOf(ws: seq<Weapon>): nat
  {
    if |ws| == 0 then 0 else PendingOf(ws[..|ws| - 1]) + ws[|ws| - 1].pending
  }

  /** Fresh weapons have no elapsed period. */
  predicate AllIdle(ws: seq<Weapon>)
  {
    forall i :: 0 <= i < |ws| ==> ws[i].pending == 0
  }

  lemma {:induction false} PendingOfIdle(ws: seq<Weapon>)
    requires AllIdle(ws)
    ensures PendingOf(ws) == 0
  {
    if |ws| > 0 {
      PendingOfIdle(ws[..|ws| - 1]);
    }
  }

  /** Appending a weapon adds its pending periods. */
  lemma PendingOfAppend(ws: seq<Weapon>, w: Weapon)
    ensures PendingOf(ws + [w]) == PendingOf(ws) + w.pending
  {
    assert (ws + [w])[..|ws|] == ws;
  }

  /** Replacing one weapon changes the total by the difference in that weapon's pending periods. */
  lemma {:induction false} PendingOfUpdate(ws: seq<Weapon>, i: nat, w: Weapon)
    requires i < |ws|
    ensures PendingOf(ws[i := w]) + ws[i].pending == PendingOf(ws) + w.pending
    decreases |ws|
  {
    var n := |ws| - 1;
    if i < n {
      assert ws[i := w][..n] == ws[..n][i := w];
      PendingOfUpdate(ws[..n], i, w);
    } else {
      assert ws[i := w][..n] == ws[..n];
    }
  }
}
