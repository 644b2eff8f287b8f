/** `DungeonProgressManager`: how many dungeons the player has cleared, when
    the boss dungeon unlocks and when it is beaten. The two C# events are
    counted by how often they fire, and the coroutine that fades to the win
    menu by how often it is started. */
module DungeonProgress {
  import opened Common
  import opened TomeTypes
  import opened DungeonOptions
  import opened Leveling

  /** The global upgrade a cleared dungeon grants: its upgrade with no
      particular tome. */
  function DungeonUpgrade(dungeon: DungeonOption): (u: TomeUpgrade)
    ensures u.upgradeType == dungeon.upgradeType && u.floatValue == dungeon.upgradeValue
    ensures u.affectedTome == TomeType.None
  {
    TomeUpgrade(dungeon.upgradeName, dungeon.upgradeType, dungeon.upgradeValue, 0, TomeType.None)
  }

  /** The boss is unlocked exactly by having cleared enough dungeons: never
      before the count reaches the quota, and always once a completion has
      brought it there. */
  predicate Unlocked(count: int, needed: int, available: bool) {
    && count >= 0
    && (available ==> count >= needed)
    && (count > 0 && count >= needed ==> available)
  }

  /** The counter and the unlock flag after one `CompleteDungeon` that does
      not start the win menu. */
  function CountedCompletion(count: int, needed: int, available: bool): (r: (int, bool))
  {
    (count + 1, available || count + 1 >= needed)
  }

  /** A counted completion keeps the unlock rule, and an unlocked boss stays
      unlocked. */
  lemma CountedCompletionKeepsUnlocked(count: int, needed: int, available: bool)
    requires Unlocked(count, needed, available)
    ensures var (c, a) := CountedCompletion(count, needed, available);
      Unlocked(c, needed, a) && (available ==> a)
  {
  }

  /** From a fresh start, the boss unlocks on the completion that brings the
      counter to the quota, and not before. */
  lemma {:induction false} UnlocksAtQuota(needed: int, n: nat)
    requires needed >= 1
    ensures Completions(needed, n).1 <==> n >= needed
    ensures Completions(needed, n).0 == n
  {
    if n > 0 {
      UnlocksAtQuota(needed, n - 1);
    }
  }

  /** `n` counted completions from the initial state. */
  function Completions(needed: int, n: nat): (int, bool) {
    if n == 0 then (0, false)
    else
      var (c, a) := Completions(needed, n - 1);
      CountedCompletion(c, needed, a)
  }

  class DungeonProgressManager {
    var dungeonsCompletedCount: int
    const dungeonsNeededForBoss: int
    var isBossDungeonAvailable: bool
    var isBossDungeonCompleted: bool
    /** How often `OnBossDungeonAvailable` and `OnBossDungeonCompleted` fired. */
    var bossAvailableEvents: nat
    var bossCompletedEvents: nat
    /** How often the fade to the win menu was started. */
    var winMenuLoads: nat

    /** The unlock rule holds and each event has fired exactly when its flag
        was raised, so at most once. */
    ghost predicate Valid()
      reads this
    {
      && Unlocked(dungeonsCompletedCount, dungeonsNeededForBoss, isBossDungeonAvailable)
      && bossAvailableEvents == (if isBossDungeonAvailable then 1 else 0)
      && bossCompletedEvents == (if isBossDungeonCompleted then 1 else 0)
    }

    /** The serialized defaults; the quota is the inspector's value (3 by
        default). */
    constructor (dungeonsNeededForBoss: int)
      ensures Valid()
      ensures this.dungeonsNeededForBoss == dungeonsNeededForBoss
      ensures dungeonsCompletedCount == 0 && !isBossDungeonAvailable && !isBossDungeonCompleted
      ensures winMenuLoads == 0
    {
      this.dungeonsNeededForBoss := dungeonsNeededForBoss;
      dungeonsCompletedCount := 0;
      isBossDungeonAvailable := false;
      isBossDungeonCompleted := false;
      bossAvailableEvents := 0;
      bossCompletedEvents := 0;
      winMenuLoads := 0;
    }

    /** `CompleteDungeon`. While the boss is unlocked and not yet beaten the
        call is the boss's completion: it marks the boss beaten and starts
        the fade to the win menu, and the counter does not move. Otherwise
        the dungeon's upgrade, if any, is applied and the counter rises by
        one, unlocking the boss when it reaches the quota. An upgrade that
        throws ends the call before the counter moves; `completed` is then
        false. The leveling component is the one `FindObjectOfType` would
        find, or null. */
    method CompleteDungeon(completedDungeon: Option<DungeonOption>, playerLeveling: PlayerLeveling?)
      returns (completed: bool)
      requires Valid()
      requires playerLeveling != null ==> playerLeveling.Valid()
      modifies this
      modifies if playerLeveling != null then {playerLeveling.playerStats} else {}
      modifies if playerLeveling != null && playerLeveling.tomeController != null
        then {playerLeveling.tomeController, playerLeveling.tomeController.equippedTomes} else {}
      ensures Valid()
      ensures playerLeveling != null ==> playerLeveling.Valid()
      ensures old(isBossDungeonAvailable && !isBossDungeonCompleted) ==>
        && dungeonsCompletedCount == old(dungeonsCompletedCount)
        && isBossDungeonAvailable && isBossDungeonCompleted
        && winMenuLoads == old(winMenuLoads) + 1
        && (playerLeveling != null ==> unchanged(playerLeveling.playerStats))
        && (playerLeveling != null && playerLeveling.tomeController != null ==>
              unchanged(playerLeveling.tomeController, playerLeveling.tomeController.equippedTomes))
        && completed
      ensures !old(isBossDungeonAvailable && !isBossDungeonCompleted) ==>
        && (completed ==>
              (dungeonsCompletedCount, isBossDungeonAvailable)
              == CountedCompletion(old(dungeonsCompletedCount), dungeonsNeededForBoss, old(isBossDungeonAvailable)))
        && (!completed ==> unchanged(this))
        && (playerLeveling == null || completedDungeon.None? ==> completed)
        && isBossDungeonCompleted == old(isBossDungeonCompleted)
        && winMenuLoads == old(winMenuLoads)
        && (playerLeveling != null && completedDungeon.Some? ==>
              playerLeveling.UpgradeApplied(DungeonUpgrade(completedDungeon.value), completed))
        && (playerLeveling != null && completedDungeon.None? ==> unchanged(playerLeveling.playerStats))
        && (playerLeveling != null && completedDungeon.None? && playerLeveling.tomeController != null ==>
              unchanged(playerLeveling.tomeController, playerLeveling.tomeController.equippedTomes))
    {
      completed := true;
      if isBossDungeonAvailable && !isBossDungeonCompleted {
        FadeToWinMenu();
        return;
      }
      if completedDungeon.Some? {
        completed := ApplyDungeonUpgrade(completedDungeon, playerLeveling);
        if !completed {
          return;
        }
      }
      dungeonsCompletedCount := dungeonsCompletedCount + 1;
      if dungeonsCompletedCount >= dungeonsNeededForBoss && !isBossDungeonAvailable {
        isBossDungeonAvailable := true;
        bossAvailableEvents := bossAvailableEvents + 1;
      }
    }

    /** `SetBossDungeonCompleted`: marks the boss beaten, firing the event
        only the first time. */
    method SetBossDungeonCompleted()
      requires Valid()
      modifies this`isBossDungeonCompleted, this`bossCompletedEvents
      ensures Valid()
      ensures isBossDungeonCompleted
      ensures bossCompletedEvents == 1
      ensures old(isBossDungeonCompleted) ==> unchanged(this)
    {
      if !isBossDungeonCompleted {
        isBossDungeonCompleted := true;
        bossCompletedEvents := bossCompletedEvents + 1;
      }
    }

    /** `ApplyDungeonUpgrade`: hands the dungeon's upgrade to the player's
        leveling component; nothing happens without a dungeon or without
        that component. `completed` is false when the upgrade throws. */
    method ApplyDungeonUpgrade(dungeon: Option<DungeonOption>, playerLeveling: PlayerLeveling?)
      returns (completed: bool)
      requires playerLeveling != null ==> playerLeveling.Valid()
      modifies if playerLeveling != null then {playerLeveling.playerStats} else {}
      modifies if playerLeveling != null && playerLeveling.tomeController != null
        then {playerLeveling.tomeController, playerLeveling.tomeController.equippedTomes} else {}
      ensures playerLeveling != null ==> playerLeveling.Valid()
      ensures playerLeveling != null && dungeon.Some? ==> playerLeveling.UpgradeApplied(DungeonUpgrade(dungeon.value), completed)
      ensures playerLeveling != null && dungeon.None? ==> unchanged(playerLeveling.playerStats)
      ensures playerLeveling != null && dungeon.None? && playerLeveling.tomeController != null ==>
        unchanged(playerLeveling.tomeController, playerLeveling.tomeController.equippedTomes)
      ensures playerLeveling == null || dungeon.None? ==> completed
    {
      completed := true;
      if dungeon.None? {
        return;
      }
      if playerLeveling == null {
        return;
      }
      var upgrade := TomeUpgrade(dungeon.value.upgradeName, dungeon.value.upgradeType, dungeon.value.upgradeValue, 0, TomeType.None);
      completed := playerLeveling.ApplyUpgrade(upgrade);
    }

    /** The part of `FadeToWinMenu` that runs before its first `yield`: the
        boss is marked beaten and the event fires; the fade and the loading
        of the win scene follow. */
    method FadeToWinMenu()
      requires Valid() && !isBossDungeonCompleted
      modifies this`isBossDungeonCompleted, this`bossCompletedEvents, this`winMenuLoads
      ensures Valid()
      ensures isBossDungeonCompleted && winMenuLoads == old(winMenuLoads) + 1
    {
      isBossDungeonCompleted := true;
      bossCompletedEvents := bossCompletedEvents + 1;
      winMenuLoads := winMenuLoads + 1;
    }
  }
}
