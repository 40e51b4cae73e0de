/** WeaponDefinition: the data-driven description of a weapon (the XML loader is not part of this model). */
module WeaponDefinitions {

  import opened Geometry

  datatype WeaponDefinition = WeaponDefinition(
    name: string,
    refireTime: real,
    rayCount: int,
    rayCone: real,
    rayRange: real,
    rayDamage: FloatRange,
    rayImpulse: real,
    projectileCount: int,
    projectileActor: string,
    projectileCone: real,
    projectileSpeed: real,
    meleeCount: int,
    meleeArc: real,
    meleeRange: real,
    meleeDamage: FloatRange,
    meleeImpulse: real,
    recoilAngle: real)

  /** WeaponDefinition(): the member initialisers. */
  const DEFAULT_WEAPON_DEFINITION: WeaponDefinition := WeaponDefinition(
    "", 0.0, 0, 0.0, 0.0, FloatRange(0.0, 1.0), 0.0,
    0, "", 0.0, 0.0,
    0, 90.0, 0.0, FloatRange(0.0, 1.0), 0.0,
    2.0)

  /** s_weaponDefs[name]: std::map::operator[] yields a default definition for a missing name. */
  function LookupWeaponDefinition(defs: map<string, WeaponDefinition>, name: string): (d: WeaponDefinition)
    ensures name in defs ==> d == defs[name]
    ensures name !in defs ==> d == DEFAULT_WEAPON_DEFINITION
  {
    if name in defs then defs[name] else DEFAULT_WEAPON_DEFINITION
  }
}
