/** `PlayerLeveling`: experience, level-ups, the random choice of three
    upgrade offers and the dispatch of a chosen upgrade to the player's stats
    or tomes. */
module Leveling {
  import opened Common
  import opened TomeTypes
  import opened TomeControllers
  import opened PlayerStats
  import opened Sampling

  /** `PlayerLeveling.TomeUpgrade`. */
  datatype TomeUpgrade = TomeUpgrade(
    upgradeName: string,
    upgradeType: UpgradeType,
    floatValue: real,
    intValue: int,
    affectedTome: TomeType)

  /** The offers `InitializeUpgradePool` lists, in order. */
  const UpgradePool: seq<TomeUpgrade> := [
    TomeUpgrade("Max Health +20", PlayerHealth, 20.0, 0, TomeType.None),
    TomeUpgrade("Armour +2", PlayerArmour, 2.0, 0, TomeType.None),
    TomeUpgrade("All Tomes Damage +10%", GlobalDamage, 0.1, 0, TomeType.None),
    TomeUpgrade("All Tomes 5% faster Attack Speed", GlobalAttackSpeed, 0.95, 0, TomeType.None),
    TomeUpgrade("Life Regeneration +1", LifeRegenAdd, 1.0, 0, TomeType.None),
    TomeUpgrade("Faster Life Regeneration -0.1s", LifeRegenRate, 0.1, 0, TomeType.None),
    TomeUpgrade("Fireball Size +20%", ProjectileSize, 0.2, 0, FireballTome),
    TomeUpgrade("Fireball Speed +15%", ProjectileSpeed, 0.15, 0, FireballTome),
    TomeUpgrade("Fireball +1 Projectile", ProjectileCount, 1.0, 0, FireballTome),
    TomeUpgrade("Meteor AoE +20%", AreaOfEffect, 0.2, 0, MeteoriteTome),
    TomeUpgrade("Meteor Burn Damage +5 DPS", DamageOverTime, 5.0, 0, MeteoriteTome),
    TomeUpgrade("Meteor fall speed +5m/s", MeteorFallSpeed, 5.0, 0, MeteoriteTome)
  ]

  /** `GetExperienceForLevel`: the total experience needed to reach `level`. */
  function ExperienceForLevel(base: real, growth: real, level: int): (r: real)
    requires growth != 1.0
    ensures level <= 1 ==> r == 0.0
  {
    if level <= 1 then 0.0 else ClosedForm(base, growth, level - 1)
  }

  /** `base * (1 - growth^n) / (1 - growth)`, the expression the threshold
      is computed by. */
  function ClosedForm(base: real, growth: real, n: nat): real
    requires growth != 1.0
  {
    base * (1.0 - Pow(growth, n)) / (1.0 - growth)
  }

  /** Reference definition: the sum of the per-level costs
      `base * growth^k` for k below `n`. */
  function SeriesSum(base: real, growth: real, n: nat): real
  {
    if n == 0 then 0.0 else SeriesSum(base, growth, n - 1) + base * Pow(growth, n - 1)
  }

  lemma {:induction false} ClosedFormStep(base: real, growth: real, n: nat)
    requires growth != 1.0
    ensures ClosedForm(base, growth, n + 1) == ClosedForm(base, growth, n) + base * Pow(growth, n)
  {
    var p := Pow(growth, n);
    assert Pow(growth, n + 1) == growth * p;
    var q := 1.0 - growth;
    assert base * (1.0 - growth * p) == base * (1.0 - p) + base * p * q;
    assert (base * (1.0 - p) + base * p * q) / q == base * (1.0 - p) / q + base * p;
  }

  /** The closed form is the sum of the first `n` per-level costs. */
  lemma {:induction false} ClosedFormIsSeries(base: real, growth: real, n: nat)
    requires growth != 1.0
    ensures ClosedForm(base, growth, n) == SeriesSum(base, growth, n)
  {
    if n > 0 {
      var m: nat := n - 1;
      ClosedFormIsSeries(base, growth, m);
      ClosedFormStep(base, growth, m);
      assert m + 1 == n;
    } else {
      assert Pow(growth, 0) == 1.0;
      var q := 1.0 - growth;
      assert ClosedForm(base, growth, 0) == 0.0 / q;
      assert (0.0 / q) * q == 0.0;
    }
  }

  /** The threshold for `level` is the cost of every level from 2 up to
      `level`. */
  lemma {:induction false} ExperienceIsSeries(base: real, growth: real, level: int)
    requires growth != 1.0 && level >= 1
    ensures ExperienceForLevel(base, growth, level) == SeriesSum(base, growth, level - 1)
  {
    if level > 1 {
      ClosedFormIsSeries(base, growth, level - 1);
    }
  }

  lemma {:induction false} PowPositive(x: real, n: nat)
    requires x > 0.0
    ensures Pow(x, n) > 0.0
  {
    if n > 0 {
      PowPositive(x, n - 1);
    }
  }

  /** With a positive base cost and positive growth, every level costs more
      experience than the one before. */
  lemma {:induction false} ExperienceIncreasing(base: real, growth: real, level: int)
    requires growth != 1.0 && base > 0.0 && growth > 0.0 && level >= 1
    ensures ExperienceForLevel(base, growth, level) < ExperienceForLevel(base, growth, level + 1)
  {
    ExperienceIsSeries(base, growth, level);
    ExperienceIsSeries(base, growth, level + 1);
    PowPositive(growth, level - 1);
  }

  /** A point of `[lo, hi)` lies at a fraction in `[0, 1)` of the way from
      `lo` to `hi`. */
  lemma {:induction false} FractionBelowOne(x: real, lo: real, hi: real)
    requires lo < hi
    ensures lo <= x < hi ==> 0.0 <= (x - lo) / (hi - lo) < 1.0
  {
    if lo <= x < hi {
      var w := hi - lo;
      var q := (x - lo) / w;
      assert q * w == x - lo;
      assert (1.0 - q) * w == hi - x;
      SignOfFactor(1.0 - q, w);
      SignOfFactor(q, w);
    }
  }

  /** A product with a positive factor has the sign of the other factor. */
  lemma SignOfFactor(a: real, b: real)
    requires b > 0.0
    ensures a * b > 0.0 ==> a > 0.0
    ensures a * b >= 0.0 ==> a >= 0.0
  {
  }

  /** The twelve pool entries are different upgrades. */
  lemma UpgradePoolDistinct()
    ensures Distinct(UpgradePool)
  {
  }

  /** The three offers of a level-up are different upgrades. */
  lemma {:induction false} OffersAreDistinct(rand: nat -> nat, d: nat)
    ensures |Draw(UpgradePool, 3, rand, d)| == 3
    ensures Distinct(Draw(UpgradePool, 3, rand, d))
  {
    UpgradePoolDistinct();
    SubsetOfDistinct(Draw(UpgradePool, 3, rand, d), UpgradePool);
  }

  /** Which component an upgrade type is handed to by `ApplyUpgrade`. */
  datatype Handler = HealthStat | ArmourStat | RegenAmountStat | RegenSpeedStat
                   | AllTomesDamage | AllTomesAttackSpeed | OneTome | Unhandled

  function HandlerOf(u: UpgradeType): (h: Handler)
    ensures h == OneTome <==> u in {ProjectileSize, AreaOfEffect, ProjectileCount, ProjectileSpeed, DamageOverTime, MeteorFallSpeed}
    ensures h == Unhandled <==> u in {PlayerMovementSpeed, PlayerCooldownReduction}
  {
    match u
    case PlayerHealth => HealthStat
    case PlayerArmour => ArmourStat
    case GlobalDamage => AllTomesDamage
    case GlobalAttackSpeed => AllTomesAttackSpeed
    case LifeRegenAdd => RegenAmountStat
    case LifeRegenRate => RegenSpeedStat
    case ProjectileSize => OneTome
    case AreaOfEffect => OneTome
    case ProjectileCount => OneTome
    case ProjectileSpeed => OneTome
    case DamageOverTime => OneTome
    case MeteorFallSpeed => OneTome
    case PlayerMovementSpeed => Unhandled
    case PlayerCooldownReduction => Unhandled
  }

  class PlayerLeveling {
    var currentExperience: real
    var currentLevel: int
    const baseExperiencePerLevel: real
    const experienceGrowthFactor: real
    const playerStats: PlayerStatManager
    const tomeController: TomeController?
    var availableUpgrades: seq<TomeUpgrade>

    ghost predicate Valid()
      reads this, playerStats, tomeController
    {
      && experienceGrowthFactor != 1.0
      && playerStats.Valid()
      && (tomeController != null ==> tomeController.Valid())
    }

    /** The inspector defaults, then `Awake`'s `InitializeUpgradePool`. */
    constructor (playerStats: PlayerStatManager, tomeController: TomeController?)
      requires playerStats.Valid() && (tomeController != null ==> tomeController.Valid())
      ensures Valid()
      ensures currentExperience == 0.0 && currentLevel == 1
      ensures baseExperiencePerLevel == 100.0 && experienceGrowthFactor == 1.2
      ensures this.playerStats == playerStats && this.tomeController == tomeController
      ensures availableUpgrades == UpgradePool
    {
      currentExperience := 0.0;
      currentLevel := 1;
      baseExperiencePerLevel := 100.0;
      experienceGrowthFactor := 1.2;
      this.playerStats := playerStats;
      this.tomeController := tomeController;
      availableUpgrades := UpgradePool;
    }

    /** `GetExperienceForLevel` on this player's settings. */
    function ExperienceFor(level: int): real
      requires experienceGrowthFactor != 1.0
    {
      ExperienceForLevel(baseExperiencePerLevel, experienceGrowthFactor, level)
    }

    /** `GetLevelProgress`: the fraction of the current level's experience
        range already earned, or 0 when the range is empty. */
    function LevelProgress(): (r: real)
      requires experienceGrowthFactor != 1.0
      reads this`currentLevel, this`currentExperience
      ensures ExperienceFor(currentLevel + 1) - ExperienceFor(currentLevel) <= 0.0 ==> r == 0.0
      ensures ExperienceFor(currentLevel) <= currentExperience < ExperienceFor(currentLevel + 1) ==> 0.0 <= r < 1.0
    {
      var currentLevelXP := ExperienceFor(currentLevel);
      var nextLevelXP := ExperienceFor(currentLevel + 1);
      var levelExperienceRange := nextLevelXP - currentLevelXP;
      if levelExperienceRange <= 0.0 then 0.0
      else
        FractionBelowOne(currentExperience, currentLevelXP, nextLevelXP);
        (currentExperience - currentLevelXP) / levelExperienceRange
    }

    /** `AddExperience`: the experience grows by `amount`, and the level by
        one exactly when the total reaches the next level's threshold; the
        offers shown for a level-up are returned (empty otherwise). */
    method AddExperience(amount: real, rand: nat -> nat, d0: nat) returns (options: seq<TomeUpgrade>, d: nat)
      requires Valid()
      modifies this`currentExperience, this`currentLevel
      ensures currentExperience == old(currentExperience) + amount
      ensures currentExperience >= ExperienceFor(old(currentLevel) + 1) ==>
        currentLevel == old(currentLevel) + 1 && options == Draw(availableUpgrades, 3, rand, d0)
      ensures currentExperience < ExperienceFor(old(currentLevel) + 1) ==>
        currentLevel == old(currentLevel) && options == [] && d == d0
    {
      currentExperience := currentExperience + amount;
      var experienceToNextLevel := ExperienceFor(currentLevel + 1);
      options, d := [], d0;
      if currentExperience >= experienceToNextLevel {
        options, d := LevelUp(rand, d0);
      }
    }

    /** `LevelUp`: one level more and three offers for the selection screen. */
    method LevelUp(rand: nat -> nat, d0: nat) returns (options: seq<TomeUpgrade>, d: nat)
      modifies this`currentLevel
      ensures currentLevel == old(currentLevel) + 1
      ensures options == Draw(availableUpgrades, 3, rand, d0)
    {
      currentLevel := currentLevel + 1;
      options, d := GetRandomUpgradeOptions(3, rand, d0);
    }

    /** `GetRandomUpgradeOptions`: `count` offers (fewer if the pool is
        smaller) drawn without replacement from a copy of the pool; the pool
        itself is not changed. */
    method GetRandomUpgradeOptions(count: int, rand: nat -> nat, d0: nat) returns (options: seq<TomeUpgrade>, d: nat)
      ensures options == Draw(availableUpgrades, count, rand, d0)
    {
      var tempList := availableUpgrades;
      var n := Min(count, |tempList|);
      ghost var pool := availableUpgrades;
      ghost var m: nat := if n < 0 then 0 else n;
      assert m == Min(if count < 0 then 0 else count, |pool|);
      options := [];
      d := d0;
      var i := 0;
      while i < n
        invariant 0 <= i <= m <= |pool|
        invariant d == d0 + i
        invariant DrawSteps(pool, i, rand, d0) == Drawing(options, tempList)
      {
        var randomIndex := Pick(rand, d, |tempList|);
        DrawStepsStep(pool, i, rand, d0, options, tempList, randomIndex);
        options := options + [tempList[randomIndex]];
        tempList := RemoveAt(tempList, randomIndex);
        d := d + 1;
        i := i + 1;
      }
    }

    /** The effect of `ApplyUpgrade(upgrade)` between the previous state and
        this one: with no tome controller nothing happens; otherwise the
        upgrade type picks the one stat or tome operation it feeds. The
        controller in this code base has no attack-speed operation, so that
        upgrade changes nothing. `completed` is false exactly when the global
        damage loop reached an empty slot, where the C# code throws out of
        `ApplyUpgrade`. */
    twostate predicate UpgradeApplied(upgrade: TomeUpgrade, completed: bool)
      reads this, playerStats, tomeController, if tomeController != null then {tomeController.equippedTomes} else {}
    {
      && (tomeController == null ==> unchanged(playerStats) && completed)
      && (tomeController != null ==>
            completed == (HandlerOf(upgrade.upgradeType) != AllTomesDamage
                          || BonusFrom(old(tomeController.equippedTomes[..]), upgrade.floatValue, 0).completed))
      && (tomeController != null ==> match HandlerOf(upgrade.upgradeType)
        case HealthStat =>
          && playerStats.maxHealth == old(playerStats.maxHealth) + upgrade.floatValue
          && playerStats.currentHealth == old(playerStats.currentHealth) + upgrade.floatValue
          && unchanged(playerStats`armour, playerStats`baseMoveSpeed, playerStats`currentMoveSpeed,
                       playerStats`lifeRegenerationAmount, playerStats`lifeRegenerationInterval, playerStats`isDead)
          && unchanged(tomeController, tomeController.equippedTomes)
        case ArmourStat =>
          && playerStats.armour == old(playerStats.armour) + upgrade.floatValue
          && unchanged(playerStats`maxHealth, playerStats`currentHealth, playerStats`baseMoveSpeed, playerStats`currentMoveSpeed,
                       playerStats`lifeRegenerationAmount, playerStats`lifeRegenerationInterval, playerStats`isDead)
          && unchanged(tomeController, tomeController.equippedTomes)
        case RegenAmountStat =>
          && playerStats.lifeRegenerationAmount == old(playerStats.lifeRegenerationAmount) + upgrade.floatValue
          && unchanged(playerStats`maxHealth, playerStats`currentHealth, playerStats`armour, playerStats`baseMoveSpeed,
                       playerStats`currentMoveSpeed, playerStats`lifeRegenerationInterval, playerStats`isDead)
          && unchanged(tomeController, tomeController.equippedTomes)
        case RegenSpeedStat =>
          && playerStats.lifeRegenerationInterval
            == ShortenedInterval(old(playerStats.lifeRegenerationInterval), upgrade.floatValue)
          && unchanged(playerStats`maxHealth, playerStats`currentHealth, playerStats`armour, playerStats`baseMoveSpeed,
                       playerStats`currentMoveSpeed, playerStats`lifeRegenerationAmount, playerStats`isDead)
          && unchanged(tomeController, tomeController.equippedTomes)
        case AllTomesDamage =>
          && tomeController.globalDamageBonus == old(tomeController.globalDamageBonus) + upgrade.floatValue
          && tomeController.equippedTomes[..] == BonusFrom(old(tomeController.equippedTomes[..]), upgrade.floatValue, 0).slots
          && tomeController.activeTomeIndex == old(tomeController.activeTomeIndex)
          && unchanged(playerStats)
        case OneTome =>
          && tomeController.equippedTomes[..]
            == UpgradeSlots(old(tomeController.equippedTomes[..]), upgrade.affectedTome, upgrade.upgradeType, upgrade.floatValue)
          && unchanged(tomeController)
          && unchanged(playerStats)
        case AllTomesAttackSpeed => unchanged(playerStats) && unchanged(tomeController, tomeController.equippedTomes)
        case Unhandled => unchanged(playerStats) && unchanged(tomeController, tomeController.equippedTomes))
    }

    /** `ApplyUpgrade`; `completed` is false when the C# code throws. */
    method ApplyUpgrade(upgrade: TomeUpgrade) returns (completed: bool)
      requires Valid()
      modifies playerStats, if tomeController != null then {tomeController, tomeController.equippedTomes} else {}
      ensures UpgradeApplied(upgrade, completed)
      ensures Valid()
    {
      completed := true;
      if tomeController == null {
        return;
      }
      match upgrade.upgradeType
      case PlayerHealth => playerStats.IncreaseHealth(upgrade.floatValue);
      case PlayerArmour => playerStats.IncreaseArmour(upgrade.floatValue);
      case GlobalDamage => completed := tomeController.ApplyGlobalDamageBonus(upgrade.floatValue);
      case GlobalAttackSpeed =>
      case LifeRegenAdd => playerStats.IncreaseLifeRegenerationAmount(upgrade.floatValue);
      case LifeRegenRate => playerStats.IncreaseLifeRegenerationSpeed(upgrade.floatValue);
      case ProjectileSize =>
        tomeController.ApplyTomeUpgrade(upgrade.affectedTome, upgrade.upgradeType, upgrade.floatValue);
      case AreaOfEffect =>
        tomeController.ApplyTomeUpgrade(upgrade.affectedTome, upgrade.upgradeType, upgrade.floatValue);
      case ProjectileCount =>
        tomeController.ApplyTomeUpgrade(upgrade.affectedTome, upgrade.upgradeType, upgrade.floatValue);
      case ProjectileSpeed =>
        tomeController.ApplyTomeUpgrade(upgrade.affectedTome, upgrade.upgradeType, upgrade.floatValue);
      case DamageOverTime =>
        tomeController.ApplyTomeUpgrade(upgrade.affectedTome, upgrade.upgradeType, upgrade.floatValue);
      case MeteorFallSpeed =>
        tomeController.ApplyTomeUpgrade(upgrade.affectedTome, upgrade.upgradeType, upgrade.floatValue);
      case PlayerMovementSpeed =>
      case PlayerCooldownReduction =>
    }
  }

}
