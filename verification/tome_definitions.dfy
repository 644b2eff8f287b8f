/** The tome and upgrade enumerations shared by the tome, leveling and
    dungeon-progress components, in declaration order. */
module TomeTypes {

  datatype TomeType = None | FireballTome | MeteoriteTome | IceHailTome

  /** Every tome type, in enum order (`Enum.GetValues`). */
  const AllTomeTypes: seq<TomeType> := [None, FireballTome, MeteoriteTome, IceHailTome]

  datatype UpgradeType =
    | PlayerHealth
    | PlayerArmour
    | PlayerMovementSpeed
    | PlayerCooldownReduction
    | GlobalDamage
    | GlobalAttackSpeed
    | LifeRegenAdd
    | LifeRegenRate
    | ProjectileSize
    | ProjectileSpeed
    | ProjectileCount
    | AreaOfEffect
    | DamageOverTime
    | MeteorFallSpeed

  /** The enum lists every tome type exactly once. */
  lemma AllTomeTypesComplete(t: TomeType)
    ensures multiset(AllTomeTypes)[t] == 1
  {
    match t
    case None =>
    case FireballTome =>
    case MeteoriteTome =>
    case IceHailTome =>
  }
}
