/** `PlayerStatManager`: the player's health, armour, movement speed and
    life regeneration, the upgrades that raise them, and the death latch. */
module PlayerStats {
  import opened Common

  /** The damage one hit deals: the amount less armour, but never below 1. */
  function DamageTaken(amount: real, armour: real): (r: real)
    ensures r >= 1.0 && r >= amount - armour
    ensures r == 1.0 || r == amount - armour
  {
    MaxReal(1.0, amount - armour)
  }

  /** The health after one regeneration tick: topped up by `regen` but
      capped at `maxHealth`. */
  function Regenerated(current: real, maxHealth: real, regen: real): (r: real)
    ensures r <= maxHealth && r <= current + regen
    ensures r == maxHealth || r == current + regen
  {
    MinReal(maxHealth, current + regen)
  }

  /** The regeneration interval after a speed upgrade of `amount` seconds:
      shortened, but never below 0.1 seconds. */
  function ShortenedInterval(interval: real, amount: real): (r: real)
    ensures r >= 0.1 && r >= interval - amount
    ensures r == 0.1 || r == interval - amount
  {
    MaxReal(0.1, interval - amount)
  }

  /** A tick never lowers health that is at most the maximum when the
      regeneration amount is not negative. */
  lemma RegenerationNeverHurts(current: real, maxHealth: real, regen: real)
    requires current <= maxHealth && regen >= 0.0
    ensures current <= Regenerated(current, maxHealth, regen) <= maxHealth
  {
  }

  class PlayerStatManager {
    var maxHealth: real
    var currentHealth: real
    var armour: real
    var baseMoveSpeed: real
    var currentMoveSpeed: real
    var lifeRegenerationAmount: real
    var lifeRegenerationInterval: real
    var isDead: bool

    /** The regeneration interval stays at or above 0.1 seconds. */
    ghost predicate Valid()
      reads this`lifeRegenerationInterval
    {
      lifeRegenerationInterval >= 0.1
    }

    /** The inspector defaults, then `Awake`: full health, base speed. */
    constructor ()
      ensures Valid()
      ensures maxHealth == 100.0 && currentHealth == maxHealth && armour == 0.0
      ensures baseMoveSpeed == 5.0 && currentMoveSpeed == baseMoveSpeed
      ensures lifeRegenerationAmount == 1.0 && lifeRegenerationInterval == 3.0
      ensures !isDead
    {
      maxHealth := 100.0;
      armour := 0.0;
      baseMoveSpeed := 5.0;
      lifeRegenerationAmount := 1.0;
      lifeRegenerationInterval := 3.0;
      isDead := false;
      currentHealth := 100.0;
      currentMoveSpeed := 5.0;
    }

    /** The death check in `Update`: the latch is set once health is at or
        below zero and is never cleared. */
    method Update()
      modifies this`isDead
      ensures isDead == (old(isDead) || currentHealth <= 0.0)
    {
      if !isDead && currentHealth <= 0.0 {
        isDead := true;
      }
    }

    /** One pass of the regeneration loop. */
    method RegenerationTick()
      modifies this`currentHealth
      ensures currentHealth == Regenerated(old(currentHealth), maxHealth, lifeRegenerationAmount)
      ensures currentHealth <= maxHealth
    {
      currentHealth := MinReal(maxHealth, currentHealth + lifeRegenerationAmount);
    }

    /** `TakeDamage`: health drops by at least 1 whatever the armour. */
    method TakeDamage(amount: real)
      modifies this`currentHealth
      ensures currentHealth == old(currentHealth) - DamageTaken(amount, armour)
      ensures currentHealth <= old(currentHealth) - 1.0
    {
      var damageTaken := MaxReal(1.0, amount - armour);
      currentHealth := currentHealth - damageTaken;
    }

    /** `IncreaseHealth`: the maximum and the current health rise together. */
    method IncreaseHealth(amount: real)
      modifies this`maxHealth, this`currentHealth
      ensures maxHealth == old(maxHealth) + amount
      ensures currentHealth == old(currentHealth) + amount
      ensures maxHealth - currentHealth == old(maxHealth) - old(currentHealth)
    {
      maxHealth := maxHealth + amount;
      currentHealth := currentHealth + amount;
    }

    method IncreaseArmour(amount: real)
      modifies this`armour
      ensures armour == old(armour) + amount
    {
      armour := armour + amount;
    }

    /** `IncreaseMovementSpeed`; passing the speed on to the character
        controller is engine wiring. */
    method IncreaseMovementSpeed(amount: real)
      modifies this`currentMoveSpeed
      ensures currentMoveSpeed == old(currentMoveSpeed) + amount
    {
      currentMoveSpeed := currentMoveSpeed + amount;
    }

    method IncreaseLifeRegenerationAmount(amount: real)
      modifies this`lifeRegenerationAmount
      ensures lifeRegenerationAmount == old(lifeRegenerationAmount) + amount
    {
      lifeRegenerationAmount := lifeRegenerationAmount + amount;
    }

    /** `IncreaseLifeRegenerationSpeed`: the interval shrinks but stays at
        least 0.1 seconds. */
    method IncreaseLifeRegenerationSpeed(amount: real)
      modifies this`lifeRegenerationInterval
      ensures lifeRegenerationInterval == ShortenedInterval(old(lifeRegenerationInterval), amount)
      ensures Valid()
    {
      lifeRegenerationInterval := MaxReal(0.1, lifeRegenerationInterval - amount);
    }
  }
}
