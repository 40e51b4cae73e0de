/**
 * The map's actor slot array (`m_actors`) as a value, and the relation
 * between two states of it within one frame: slots are only ever appended
 * and an empty slot stays empty; an actor that stays keeps its handle and
 * its definition, never comes back to life and never gains a refire period
 * or an elapsed corpse lifetime (only the clock does that, between frames).
 * Which slots are emptied, and why, is stated by the operation that empties
 * them. The refire and lifetime counts below bound what one frame can spawn.
 */
module ActorSlots {

  import opened Wrappers
  import opened Weapons
  import opened Actors

  /** The unconsumed refire periods held in one slot. */
  function SlotPending(o: Option<Actor>): nat
  {
    if o.Some? then ActorPending(o.value) else 0
  }

  /** The unconsumed refire periods of every actor in the slots. */
  function TotalPending(s: seq<Option<Actor>>): nat
  {
    if |s| == 0 then 0 else TotalPending(s[..|s| - 1]) + SlotPending(s[|s| - 1])
  }

  /** Whether the slot holds an actor whose corpse lifetime has run out. */
  predicate Expired(o: Option<Actor>)
  {
    o.Some? && o.value.lifetime.elapsed
  }

  /** The slots from `from` on that hold an actor whose corpse lifetime has run out. */
  function Expiring(s: seq<Option<Actor>>, from: nat): nat
    decreases |s| - from
  {
    if from >= |s| then 0 else (if Expired(s[from]) then 1 else 0) + Expiring(s, from + 1)
  }

  /** One slot later in the frame. */
  predicate SlotEvolves(before: Option<Actor>, after: Option<Actor>)
  {
    (before.None? ==> after.None?) &&
    (before.Some? && after.Some? ==> Persists(before.value, after.value))
  }

  /** A slot appended during the frame holds a newly built actor: no refire period, no elapsed lifetime. */
  predicate Fresh(o: Option<Actor>)
  {
    o.Some? ==> ActorPending(o.value) == 0 && !o.value.lifetime.elapsed
  }

  /** The slot array `after` is a later state of `before` within one frame. */
  predicate Evolves(before: seq<Option<Actor>>, after: seq<Option<Actor>>)
  {
    |before| <= |after| &&
    (forall i :: 0 <= i < |before| ==> SlotEvolves(before[i], after[i])) &&
    (forall i :: |before| <= i < |after| ==> Fresh(after[i]))
  }

  lemma EvolvesReflexive(s: seq<Option<Actor>>)
    ensures Evolves(s, s)
  {
  }

  lemma EvolvesTransitive(a: seq<Option<Actor>>, b: seq<Option<Actor>>, c: seq<Option<Actor>>)
    requires Evolves(a, b) && Evolves(b, c)
    ensures Evolves(a, c)
  {
    forall i | 0 <= i < |a|
      ensures SlotEvolves(a[i], c[i])
    {
      assert SlotEvolves(a[i], b[i]) && SlotEvolves(b[i], c[i]);
    }
    forall i | |a| <= i < |c|
      ensures Fresh(c[i])
    {
      if i < |b| {
        assert SlotEvolves(b[i], c[i]);
      }
    }
  }

  /** No step of a frame adds refire periods. */
  lemma {:induction false} EvolvesPending(a: seq<Option<Actor>>, b: seq<Option<Actor>>)
    requires Evolves(a, b)
    ensures TotalPending(b) <= TotalPending(a)
    decreases |b|
  {
    if |b| > 0 {
      var n := |b| - 1;
      if |a| == |b| {
        assert SlotEvolves(a[n], b[n]);
        assert Evolves(a[..n], b[..n]);
        EvolvesPending(a[..n], b[..n]);
      } else {
        assert Fresh(b[n]);
        assert Evolves(a, b[..n]);
        EvolvesPending(a, b[..n]);
      }
    }
  }

  /** A step that consumes a refire period of an actor that stays lowers the total. */
  lemma {:induction false} EvolvesPendingStrict(a: seq<Option<Actor>>, b: seq<Option<Actor>>, k: nat)
    requires Evolves(a, b)
    requires k < |a| && SlotPending(b[k]) < SlotPending(a[k])
    ensures TotalPending(b) < TotalPending(a)
    decreases |b|
  {
    var n := |b| - 1;
    if |a| == |b| {
      assert SlotEvolves(a[n], b[n]);
      assert Evolves(a[..n], b[..n]);
      if k == n {
        EvolvesPending(a[..n], b[..n]);
      } else {
        EvolvesPendingStrict(a[..n], b[..n], k);
      }
    } else {
      assert Fresh(b[n]);
      assert Evolves(a, b[..n]);
      EvolvesPendingStrict(a, b[..n], k);
    }
  }

  /** No step of a frame makes a corpse lifetime run out. */
  lemma {:induction false} EvolvesExpiring(a: seq<Option<Actor>>, b: seq<Option<Actor>>, from: nat)
    requires Evolves(a, b)
    ensures Expiring(b, from) <= Expiring(a, from)
    decreases |b| - from
  {
    if from < |b| {
      EvolvesExpiring(a, b, from + 1);
      if from < |a| {
        assert SlotEvolves(a[from], b[from]);
      } else {
        assert Fresh(b[from]);
      }
    }
  }

  /** Replacing one slot's actor by a later state of it is a step of the frame. */
  lemma UpdateEvolves(s: seq<Option<Actor>>, i: nat, a: Actor)
    requires i < |s| && s[i].Some? && Persists(s[i].value, a)
    ensures Evolves(s, s[i := Some(a)])
  {
  }

  /** Appending a newly built actor is a step of the frame. */
  lemma AppendEvolves(s: seq<Option<Actor>>, a: Actor)
    requires ActorPending(a) == 0 && !a.lifetime.elapsed
    ensures Evolves(s, s + [Some(a)])
  {
  }

  /**
   * Every occupied slot of `before` still holds its actor, with the same
   * weapons, equipped index and controllers; slots may have been appended.
   */
  predicate ShapesKept(before: seq<Option<Actor>>, after: seq<Option<Actor>>)
  {
    |before| <= |after| &&
    forall k :: 0 <= k < |before| && before[k].Some? ==> after[k].Some? && SameShape(before[k].value, after[k].value)
  }

  lemma ShapesKeptTransitive(a: seq<Option<Actor>>, b: seq<Option<Actor>>, c: seq<Option<Actor>>)
    requires ShapesKept(a, b) && ShapesKept(b, c)
    ensures ShapesKept(a, c)
  {
  }

  /** `after` has the controllers, the equipped index and the weapon counts of `before`. */
  predicate Steady(before: Actor, after: Actor)
  {
    after.controller == before.controller && after.aiController == before.aiController &&
    after.equippedWeaponIndex == before.equippedWeaponIndex && |after.weapons| == |before.weapons| &&
    |after.leftWeapons| == |before.leftWeapons| && |after.rightWeapons| == |before.rightWeapons|
  }

  /** Every occupied slot of `before` still holds its actor, steady; slots may have been appended. */
  predicate SlotsKept(before: seq<Option<Actor>>, after: seq<Option<Actor>>)
  {
    |before| <= |after| &&
    forall k :: 0 <= k < |before| && before[k].Some? ==> after[k].Some? && Steady(before[k].value, after[k].value)
  }

  lemma SlotsKeptTransitive(a: seq<Option<Actor>>, b: seq<Option<Actor>>, c: seq<Option<Actor>>)
    requires SlotsKept(a, b) && SlotsKept(b, c)
    ensures SlotsKept(a, c)
  {
  }

  lemma ShapesKeptSlotsKept(a: seq<Option<Actor>>, b: seq<Option<Actor>>)
    requires ShapesKept(a, b)
    ensures SlotsKept(a, b)
  {
  }

  lemma UpdateShapesKept(s: seq<Option<Actor>>, i: nat, a: Actor)
    requires i < |s| && s[i].Some? && SameShape(s[i].value, a)
    ensures ShapesKept(s, s[i := Some(a)])
  {
  }

  lemma UpdateSlotsKept(s: seq<Option<Actor>>, i: nat, a: Actor)
    requires i < |s| && s[i].Some? && Steady(s[i].value, a)
    ensures SlotsKept(s, s[i := Some(a)])
  {
  }
}
