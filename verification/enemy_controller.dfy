/** `EnemyController`: an enemy's life cycle. The state machine's guards,
    damage, death with its reward, and the burn guard; the state routines
    themselves (wander, chase, attack) run on the engine's clock and only
    their starting is recorded. */
module Enemies {
  import opened Common
  import opened EnemyStatistics
  import opened Sampling
  import opened Leveling
  import opened Portal

  datatype State = Idle | Chasing | Attacking | Dead

  /** The two guards of `SetState`: re-entering the current state is
      ignored unless that state is Idle, and a dead enemy enters no state
      but Dead. */
  predicate StateChangeAllowed(current: State, isDead: bool, newState: State) {
    && !(current == newState && newState != Idle)
    && !(isDead && newState != Dead)
  }

  /** The routine `SetState` starts for a state: none for Dead. */
  function RoutineFor(s: State): (r: Option<State>)
    ensures r.None? <==> s == Dead
    ensures r.Some? ==> r.value == s
  {
    if s == Dead then Option.None else Some(s)
  }

  /** Once dead, an enemy can only be sent to Dead; and the guards let a
      living enemy enter any state other than the one it is in, and Idle
      always. */
  lemma StateGuards(current: State, isDead: bool, newState: State)
    ensures isDead && StateChangeAllowed(current, isDead, newState) ==> newState == Dead
    ensures !isDead && newState != current ==> StateChangeAllowed(current, isDead, newState)
    ensures !isDead && newState == Idle ==> StateChangeAllowed(current, isDead, newState)
    ensures StateChangeAllowed(current, isDead, newState) ==> newState != current || newState == Idle
  {
  }

  class EnemyController {
    var stats: Option<EnemyStats>
    var currentHealth: real
    var originalMoveSpeed: real
    var attackCooldown: real
    var currentState: State
    /** Which state routine `currentStateRoutine` runs, if any. */
    var stateRoutine: Option<State>
    var isBurning: bool
    var burningTimer: real
    var isInitialized: bool
    var isDead: bool
    /** Whether `WaitAndReturnToPool` has been started. */
    var returnToPoolPending: bool
    /** `Player.Instance.Leveling`, when there is a player. */
    const leveling: PlayerLeveling?
    /** `TeleportingPortal.instance`, when there is one. */
    const portal: TeleportingPortal?

    /** An initialised enemy has stats, and a running routine belongs to
        the current state. */
    ghost predicate RoutineMatches()
      reads this
    {
      && (isInitialized ==> stats.Some?)
      && (stateRoutine.Some? ==> stateRoutine.value == currentState)
    }

    /** Besides, an enemy is dead exactly when it is in state Dead, and a
        dead enemy was initialised and runs no routine. */
    ghost predicate Valid()
      reads this
    {
      && RoutineMatches()
      && (isDead <==> currentState == Dead)
      && (isDead ==> isInitialized && stateRoutine.None?)
    }

    constructor (leveling: PlayerLeveling?, portal: TeleportingPortal?)
      ensures Valid() && this.leveling == leveling && this.portal == portal
      ensures stats.None? && !isInitialized && !isDead && !isBurning && !returnToPoolPending
      ensures currentState == Idle && stateRoutine.None?
    {
      this.leveling := leveling;
      this.portal := portal;
      stats := Option.None;
      currentHealth := 0.0;
      originalMoveSpeed := 0.0;
      attackCooldown := 0.0;
      currentState := Idle;
      stateRoutine := Option.None;
      isBurning := false;
      burningTimer := 0.0;
      isInitialized := false;
      isDead := false;
      returnToPoolPending := false;
    }

    /** `SetState`: when the guards let the change through, the previous
        routine is stopped and the new state's routine started. */
    method SetState(newState: State)
      requires RoutineMatches()
      modifies this`currentState, this`stateRoutine
      ensures RoutineMatches()
      ensures StateChangeAllowed(old(currentState), isDead, newState) ==>
        currentState == newState && stateRoutine == RoutineFor(newState)
      ensures !StateChangeAllowed(old(currentState), isDead, newState) ==>
        currentState == old(currentState) && stateRoutine == old(stateRoutine)
    {
      if currentState == newState && newState != Idle {
        return;
      }
      if isDead && newState != Dead {
        return;
      }
      stateRoutine := Option.None;
      currentState := newState;
      match currentState {
        case Idle => stateRoutine := Some(Idle);
        case Chasing => stateRoutine := Some(Chasing);
        case Attacking => stateRoutine := Some(Attacking);
        case Dead =>
      }
    }

    /** `Initialize`: full health, alive, the cooldown from the attack
        rate, and the Idle routine running. The burn flag is left as it
        was. */
    method Initialize(enemyStats: EnemyStats)
      requires Valid()
      requires enemyStats.attackSpeed != 0.0
      modifies this`stats, this`isDead, this`currentHealth, this`originalMoveSpeed, this`attackCooldown
      modifies this`isInitialized, this`currentState, this`stateRoutine
      ensures Valid()
      ensures stats == Some(enemyStats) && isInitialized && !isDead
      ensures currentHealth == enemyStats.maxHealth && originalMoveSpeed == enemyStats.moveSpeed
      ensures attackCooldown * enemyStats.attackSpeed == 1.0
      ensures currentState == Idle && stateRoutine == Some(Idle)
    {
      stats := Some(enemyStats);
      isDead := false;
      currentHealth := enemyStats.maxHealth;
      originalMoveSpeed := enemyStats.moveSpeed;
      attackCooldown := 1.0 / enemyStats.attackSpeed;
      isInitialized := true;
      SetState(Idle);
    }

    /** The effect of `AwardExperienceAndNotify` on the player and the
        portal: the reward is added to the player's experience and one
        kill is counted at the portal. */
    twostate predicate Rewarded(xpReward: int, rand: nat -> nat, d0: nat, options: seq<TomeUpgrade>, d: nat)
      reads this, leveling, portal
    {
      && (leveling != null ==> leveling.currentExperience == old(leveling.currentExperience) + xpReward as real)
      && (leveling != null && leveling.experienceGrowthFactor != 1.0 ==>
            && (leveling.currentExperience >= leveling.ExperienceFor(old(leveling.currentLevel) + 1) ==>
                  leveling.currentLevel == old(leveling.currentLevel) + 1
                  && options == Draw(leveling.availableUpgrades, 3, rand, d0))
            && (leveling.currentExperience < leveling.ExperienceFor(old(leveling.currentLevel) + 1) ==>
                  leveling.currentLevel == old(leveling.currentLevel) && options == [] && d == d0))
      && (leveling == null ==> options == [] && d == d0)
      && (portal != null ==>
            && portal.killedEnemies == old(portal.killedEnemies) + 1
            && portal.isPortalActive ==
                 (old(portal.isPortalActive) || portal.isBossDungeon
                  || ShouldActivate(portal.isBossDungeon, portal.killedEnemies, portal.totalEnemies, portal.requiredKillPercentage)))
    }

    /** `Die`: a second call does nothing. The first marks the enemy dead,
        enters Dead (stopping every routine), rewards the player, tells the
        portal and starts the return to the pool. */
    method Die(rand: nat -> nat, d0: nat) returns (options: seq<TomeUpgrade>, d: nat)
      requires Valid() && isInitialized
      requires leveling != null ==> leveling.Valid()
      modifies this`isDead, this`currentState, this`stateRoutine, this`returnToPoolPending
      modifies if leveling != null then {leveling} else {}
      modifies if portal != null then {portal} else {}
      ensures Valid()
      ensures old(isDead) ==> unchanged(this) && options == [] && d == d0
      ensures old(isDead) && leveling != null ==> unchanged(leveling)
      ensures old(isDead) && portal != null ==> unchanged(portal)
      ensures !old(isDead) ==>
        && isDead && currentState == Dead && stateRoutine.None? && returnToPoolPending
        && Rewarded(stats.value.xpReward, rand, d0, options, d)
    {
      options, d := [], d0;
      if isDead {
        return;
      }
      isDead := true;
      SetState(Dead);
      if leveling != null {
        options, d := leveling.AddExperience(stats.value.xpReward as real, rand, d0);
      }
      if portal != null {
        portal.EnemyKilled();
      }
      returnToPoolPending := true;
    }

    /** `TakeDamage`: ignored before initialisation and after death;
        otherwise health drops by the damage and the enemy dies once it is
        at or below zero. */
    method TakeDamage(damage: real, rand: nat -> nat, d0: nat) returns (options: seq<TomeUpgrade>, d: nat)
      requires Valid()
      requires leveling != null ==> leveling.Valid()
      modifies this`currentHealth, this`isDead, this`currentState, this`stateRoutine, this`returnToPoolPending
      modifies if leveling != null then {leveling} else {}
      modifies if portal != null then {portal} else {}
      ensures Valid()
      ensures !old(isInitialized) || old(isDead) ==> unchanged(this) && options == [] && d == d0
      ensures old(isInitialized) && !old(isDead) ==>
        && currentHealth == old(currentHealth) - damage
        && isDead == (currentHealth <= 0.0)
      ensures old(isInitialized) && !old(isDead) && currentHealth > 0.0 ==>
        currentState == old(currentState) && stateRoutine == old(stateRoutine) && options == [] && d == d0
      ensures old(isInitialized) && !old(isDead) && currentHealth <= 0.0 ==>
        && currentState == Dead && stateRoutine.None? && returnToPoolPending
        && Rewarded(stats.value.xpReward, rand, d0, options, d)
      ensures (!old(isInitialized) || old(isDead) || currentHealth > 0.0) && leveling != null ==> unchanged(leveling)
      ensures (!old(isInitialized) || old(isDead) || currentHealth > 0.0) && portal != null ==> unchanged(portal)
    {
      options, d := [], d0;
      if !isInitialized || isDead {
        return;
      }
      currentHealth := currentHealth - damage;
      if currentHealth <= 0.0 {
        options, d := Die(rand, d0);
      }
    }

    /** A burning enemy killed by another hit keeps its burn flag: `Die`
        stops every routine, the burn routine among them, before that
        routine clears the flag, and `Initialize` does not reset it. Once the
        enemy is taken from the pool and initialised again, it can no longer
        be set on fire. Calling `Die` directly here stands for such a hit. A
        death from the burn tick itself is different: that tick's step runs
        on, sees the enemy dead and clears the flag; the burn routine is not
        part of this model. */
    method BurnLatchSurvivesReuse(enemyStats: EnemyStats, damage: real, duration: real, rand: nat -> nat, d0: nat)
      returns (started: bool)
      requires Valid() && isInitialized && isBurning
      requires enemyStats.attackSpeed != 0.0
      requires leveling != null ==> leveling.Valid()
      modifies this
      modifies if leveling != null then {leveling} else {}
      modifies if portal != null then {portal} else {}
      ensures isInitialized && !isDead && isBurning
      ensures !started
    {
      var options, d := Die(rand, d0);
      Initialize(enemyStats);
      started := StartBurning(damage, duration);
    }

    /** `StartBurning`: a burn starts only on a living enemy that is not
        already burning; `started` says whether the burn routine was
        started. */
    method StartBurning(damage: real, duration: real) returns (started: bool)
      modifies this`isBurning, this`burningTimer
      ensures started == (!isDead && !old(isBurning))
      ensures started ==> isBurning && burningTimer == 0.0
      ensures !started ==> isBurning == old(isBurning) && burningTimer == old(burningTimer)
    {
      started := false;
      if isDead {
        return;
      }
      if !isBurning {
        isBurning := true;
        burningTimer := 0.0;
        started := true;
      }
    }
  }
}
