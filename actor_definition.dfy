/**
 * ActorDefinition: factions, billboard types, animation groups and the
 * data-driven description of an actor, with the string lookups the game
 * performs on them. The XML loader is not part of this model.
 */
module ActorDefinitions {

  import opened Geometry
  import opened WeaponDefinitions

  datatype Faction = INVALID | SPAWNPOINT | MARINE | DEMON | NEUTRAL

  datatype BillboardType = NONE | WORLD_UP_FACING | WORLD_UP_OPPOSING | FULL_FACING | FULL_OPPOSING

  /**
   * The characters `strcmp` sees through `c_str()`: everything before the
   * first NUL of the string.
   */
  function CString(s: string): (r: string)
    ensures |r| <= |s| && r == s[..|r|]
    ensures '\0' !in r
    ensures |r| < |s| ==> s[|r|] == '\0'
  {
    if |s| == 0 || s[0] == '\0' then "" else [s[0]] + CString(s[1..])
  }

  /** For a string without an embedded NUL, `strcmp` compares the whole string. */
  lemma {:induction false} CStringOfNulFree(s: string)
    requires '\0' !in s
    ensures CString(s) == s
  {
    if |s| > 0 {
      assert s[0] in s;
      assert forall c :: c in s[1..] ==> c in s;
      CStringOfNulFree(s[1..]);
      assert s == [s[0]] + s[1..];
    }
  }

  /** `!strcmp(literal, s.c_str())` for a literal without NUL. */
  predicate StrEquals(literal: string, s: string)
  {
    CString(s) == literal
  }

  /** GetFactionFromString */
  function GetFactionFromString(s: string): (f: Faction)
    ensures f == MARINE <==> StrEquals("Marine", s)
    ensures f == DEMON <==> StrEquals("Demon", s)
    ensures f == SPAWNPOINT <==> StrEquals("SpawnPoint", s)
    ensures f == INVALID <==> !StrEquals("Marine", s) && !StrEquals("Demon", s) && !StrEquals("SpawnPoint", s)
    ensures f != NEUTRAL
  {
    if StrEquals("Marine", s) then MARINE
    else if StrEquals("Demon", s) then DEMON
    else if StrEquals("SpawnPoint", s) then SPAWNPOINT
    else INVALID
  }

  /** Faction names are matched exactly and case-sensitively. */
  lemma FactionNamesAreCaseSensitive()
    ensures GetFactionFromString("Marine") == MARINE
    ensures GetFactionFromString("marine") == INVALID
    ensures GetFactionFromString("Demon") == DEMON
    ensures GetFactionFromString("DEMON") == INVALID
    ensures GetFactionFromString("SpawnPoint") == SPAWNPOINT
    ensures GetFactionFromString("Marines") == INVALID
  {
    CStringOfNulFree("Marine");
    CStringOfNulFree("marine");
    CStringOfNulFree("Demon");
    CStringOfNulFree("DEMON");
    CStringOfNulFree("SpawnPoint");
    CStringOfNulFree("Marines");
  }

  /** GetBillboardTypeFromString */
  function GetBillboardTypeFromString(s: string): (b: BillboardType)
    ensures b == WORLD_UP_FACING <==> StrEquals("WorldUpFacing", s)
    ensures b == WORLD_UP_OPPOSING <==> StrEquals("WorldUpOpposing", s)
    ensures b == FULL_FACING <==> StrEquals("FullFacing", s)
    ensures b == FULL_OPPOSING <==> StrEquals("FullOpposing", s)
    ensures b == NONE <==>
              !StrEquals("WorldUpFacing", s) && !StrEquals("WorldUpOpposing", s) &&
              !StrEquals("FullFacing", s) && !StrEquals("FullOpposing", s)
  {
    if StrEquals("WorldUpFacing", s) then WORLD_UP_FACING
    else if StrEquals("WorldUpOpposing", s) then WORLD_UP_OPPOSING
    else if StrEquals("FullFacing", s) then FULL_FACING
    else if StrEquals("FullOpposing", s) then FULL_OPPOSING
    else NONE
  }

  /** AnimationGroupDefinition: the parts the simulation reads. */
  datatype AnimationGroup = AnimationGroup(name: string, scaleBySpeed: bool)

  /** The first group whose name matches, else the first group of the list. */
  function GetAnimationGroupByName(groups: seq<AnimationGroup>, name: string): (g: AnimationGroup)
    requires |groups| > 0
    ensures g in groups
    ensures (exists i :: 0 <= i < |groups| && CString(name) == CString(groups[i].name))
        ==> CString(g.name) == CString(name)
    ensures (forall i :: 0 <= i < |groups| ==> CString(name) != CString(groups[i].name)) ==> g == groups[0]
    ensures (exists i :: 0 <= i < |groups| && CString(name) == CString(groups[i].name)) ==>
      exists i :: 0 <= i < |groups| && g == groups[i] && CString(name) == CString(groups[i].name) &&
        forall j :: 0 <= j < i ==> CString(name) != CString(groups[j].name)
  {
    var i := FirstMatching(groups, name, 0);
    if i < |groups| then groups[i] else groups[0]
  }

  /** The loop of GetAnimationGroupByName: the first index at or after `from` whose name matches, or |groups|. */
  function FirstMatching(groups: seq<AnimationGroup>, name: string, from: nat): (i: nat)
    requires from <= |groups|
    ensures from <= i <= |groups|
    ensures i < |groups| ==> CString(name) == CString(groups[i].name)
    ensures forall j :: from <= j < i ==> CString(name) != CString(groups[j].name)
    decreases |groups| - from
  {
    if from == |groups| then from
    else if CString(name) == CString(groups[from].name) then from
    else FirstMatching(groups, name, from + 1)
  }

  datatype ActorDefinition = ActorDefinition(
    name: string,
    faction: Faction,
    health: real,
    canBePossessed: bool,
    dieOnSpawn: bool,
    corpseLifetime: real,
    physicsRadius: real,
    physicsHeight: real,
    collidesWithWorld: bool,
    collidesWithActors: bool,
    walkSpeed: real,
    runSpeed: real,
    turnSpeed: real,
    drag: real,
    eyeHeight: real,
    weapons: seq<WeaponDefinition>,
    weaponHeight: real,
    dieOnCollide: bool,
    damageOnCollide: FloatRange,
    impulseOnCollide: real,
    aiEnabled: bool,
    sightRadius: real,
    sightAngle: real,
    animations: seq<AnimationGroup>,
    gravityScale: real,
    is3DActor: bool)

  /** ActorDefinition(): the member initialisers. */
  const DEFAULT_ACTOR_DEFINITION: ActorDefinition := ActorDefinition(
    "", INVALID, 100.0, false, false, 0.0, 0.0, 0.0, false, false,
    4.0, 10.0, 90.0, 3.0, 0.0, [], 0.0, false, ZERO_RANGE, 0.0,
    false, 0.0, 0.0, [], 0.0, false)

  /** s_actorDefs[name]: std::map::operator[] yields a default definition for a missing name. */
  function LookupActorDefinition(defs: map<string, ActorDefinition>, name: string): (d: ActorDefinition)
    ensures name in defs ==> d == defs[name]
    ensures name !in defs ==> d == DEFAULT_ACTOR_DEFINITION
  {
    if name in defs then defs[name] else DEFAULT_ACTOR_DEFINITION
  }
}
