/** `EnemyStats`: an enemy's base statistics and their scaled copy for a
    harder dungeon. Floats are modelled as reals. */
module EnemyStatistics {
  import opened Common

  datatype EnemyStats = EnemyStats(
    maxHealth: real,
    moveSpeed: real,
    attackSpeed: real,
    damage: real,
    attackRange: real,
    xpReward: int,
    healthScaling: real,
    damageScaling: real)

  /** The field initialisers, which a fresh instance starts from. */
  const DefaultStats := EnemyStats(30.0, 3.5, 1.0, 10.0, 1.8, 10, 1.1, 1.05)

  /** The two scaling factors a fresh instance has. */
  predicate HasDefaultScaling(s: EnemyStats) {
    s.healthScaling == DefaultStats.healthScaling && s.damageScaling == DefaultStats.damageScaling
  }

  /** `GetScaledVersion`: a new instance whose health and damage are
      multiplied by the receiver's scaling factors once per level and whose
      reward grows by 2 per level. Speed, attack rate and range are copied;
      the scaling factors are not copied, so the new instance keeps the
      defaults. */
  function GetScaledVersion(s: EnemyStats, level: nat): (r: EnemyStats)
    ensures r.moveSpeed == s.moveSpeed && r.attackSpeed == s.attackSpeed && r.attackRange == s.attackRange
    ensures r.xpReward == s.xpReward + 2 * level
    ensures HasDefaultScaling(r)
    ensures level == 0 ==> r == s.(healthScaling := 1.1, damageScaling := 1.05)
  {
    DefaultStats.(
      maxHealth := s.maxHealth * Pow(s.healthScaling, level),
      moveSpeed := s.moveSpeed,
      attackSpeed := s.attackSpeed,
      damage := s.damage * Pow(s.damageScaling, level),
      attackRange := s.attackRange,
      xpReward := s.xpReward + level * 2)
  }

  lemma {:induction false} PowAdd(x: real, a: nat, b: nat)
    ensures Pow(x, a) * Pow(x, b) == Pow(x, a + b)
    decreases a
  {
    if a > 0 {
      PowAdd(x, a - 1, b);
      var p, q := Pow(x, a - 1), Pow(x, b);
      assert Pow(x, a + b) == x * Pow(x, a - 1 + b);
      assert (x * p) * q == x * (p * q);
    }
  }

  lemma {:induction false} PowAtLeastOne(x: real, n: nat)
    requires x >= 1.0
    ensures Pow(x, n) >= 1.0
    decreases n
  {
    if n > 0 {
      PowAtLeastOne(x, n - 1);
      var p := Pow(x, n - 1);
      assert x * p - p == (x - 1.0) * p;
    }
  }

  /** Scaling the base stats of a fresh instance twice is scaling once by
      the summed levels. */
  lemma ScalingComposes(s: EnemyStats, a: nat, b: nat)
    requires HasDefaultScaling(s)
    ensures GetScaledVersion(GetScaledVersion(s, a), b) == GetScaledVersion(s, a + b)
  {
    PowAdd(s.healthScaling, a, b);
    PowAdd(s.damageScaling, a, b);
    var h := Pow(s.healthScaling, a);
    var g := Pow(s.damageScaling, a);
    assert (s.maxHealth * h) * Pow(s.healthScaling, b) == s.maxHealth * (h * Pow(s.healthScaling, b));
    assert (s.damage * g) * Pow(s.damageScaling, b) == s.damage * (g * Pow(s.damageScaling, b));
  }

  /** With scaling factors of at least 1, a scaled enemy has at least the
      base health and damage. */
  lemma ScalingNeverWeakens(s: EnemyStats, level: nat)
    requires s.healthScaling >= 1.0 && s.damageScaling >= 1.0
    requires s.maxHealth >= 0.0 && s.damage >= 0.0
    ensures GetScaledVersion(s, level).maxHealth >= s.maxHealth
    ensures GetScaledVersion(s, level).damage >= s.damage
  {
    PowAtLeastOne(s.healthScaling, level);
    PowAtLeastOne(s.damageScaling, level);
    var h := Pow(s.healthScaling, level);
    var g := Pow(s.damageScaling, level);
    assert s.maxHealth * h - s.maxHealth == s.maxHealth * (h - 1.0);
    assert s.damage * g - s.damage == s.damage * (g - 1.0);
  }
}
