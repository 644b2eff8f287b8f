/** The kill tracking of `TeleportingPortal`: the portal out of a dungeon
    opens once enough of its enemies are dead, or, in the boss dungeon, on
    the first kill. Teleporting, recalling and scene handling are not part
    of this model; the portal's colliders, renderers and lights are one
    `visible` flag. */
module Portal {
  import opened Common
  import opened DungeonSelection

  /** `UpdatePortalState`'s test: nothing opens the portal before enemies
      are registered; then the boss dungeon needs one kill and any other
      dungeon the required fraction of its enemies. */
  predicate ShouldActivate(isBossDungeon: bool, killed: int, total: int, required: real) {
    total > 0 && (if isBossDungeon then killed > 0 else killed as real / total as real >= required)
  }

  /** Once the test holds, a further kill keeps it holding. */
  lemma ShouldActivateStaysTrue(isBossDungeon: bool, killed: int, total: int, required: real)
    requires ShouldActivate(isBossDungeon, killed, total, required)
    ensures ShouldActivate(isBossDungeon, killed + 1, total, required)
  {
    if !isBossDungeon {
      var t := total as real;
      assert (killed + 1) as real / t == killed as real / t + 1.0 / t;
    }
  }

  /** In a dungeon that is not the boss's, killing every registered enemy
      opens the portal whenever the required fraction is at most 1. */
  lemma AllKilledActivates(total: int, required: real)
    requires total > 0 && required <= 1.0
    ensures ShouldActivate(false, total, total, required)
  {
  }

  /** The activation progress `UpdateEnemyKillUI` shows, before rounding:
      the killed fraction over the required one, as a percentage capped at
      100. */
  function ActivationPercentage(killed: int, total: int, required: real): (r: real)
    requires total > 0 && required > 0.0
    ensures r <= 100.0
    ensures killed >= 0 ==> r >= 0.0
  {
    MinReal(1.0, (killed as real / total as real) / required) * 100.0
  }

  /** The display reaches 100% exactly when the kill test of a normal
      dungeon holds. */
  lemma FullPercentageIffActivates(killed: int, total: int, required: real)
    requires total > 0 && required > 0.0
    ensures ActivationPercentage(killed, total, required) == 100.0 <==> ShouldActivate(false, killed, total, required)
  {
    var f := killed as real / total as real;
    QuotientAtLeastOne(f, required);
  }

  lemma QuotientAtLeastOne(f: real, required: real)
    requires required > 0.0
    ensures f / required >= 1.0 <==> f >= required
  {
    var q := f / required;
    assert (q - 1.0) * required == f - required;
  }

  class TeleportingPortal {
    const requiredKillPercentage: real
    var totalEnemies: int
    var killedEnemies: int
    var isPortalActive: bool
    var isBossDungeon: bool
    var returnedFromDungeon: bool
    /** Whether the portal's collider, renderers and lights are enabled. */
    var visible: bool
    const dungeonSelector: DungeonSelector?

    /** The serialized defaults, then `Start`: the portal is hidden and the
        boss flag is read from the progress manager when there is one. */
    constructor (dungeonSelector: DungeonSelector?, bossDungeonAvailable: Option<bool>)
      ensures requiredKillPercentage == 0.75 && this.dungeonSelector == dungeonSelector
      ensures totalEnemies == 0 && killedEnemies == 0
      ensures !isPortalActive && !returnedFromDungeon && !visible
      ensures isBossDungeon == (bossDungeonAvailable == Some(true))
    {
      requiredKillPercentage := 0.75;
      this.dungeonSelector := dungeonSelector;
      totalEnemies := 0;
      killedEnemies := 0;
      isPortalActive := false;
      returnedFromDungeon := false;
      visible := false;
      isBossDungeon := bossDungeonAvailable == Some(true);
    }

    /** The dungeon-scene part of `OnSceneLoaded`: the boss flag is read
        again when the progress manager exists. */
    method OnDungeonSceneLoaded(bossDungeonAvailable: Option<bool>)
      modifies this`isBossDungeon
      ensures bossDungeonAvailable.Some? ==> isBossDungeon == bossDungeonAvailable.value
      ensures bossDungeonAvailable.None? ==> isBossDungeon == old(isBossDungeon)
    {
      if bossDungeonAvailable.Some? {
        isBossDungeon := bossDungeonAvailable.value;
      }
    }

    /** `RegisterTotalEnemyCount`: the spawned total is recorded and the
        kills start again from zero. */
    method RegisterTotalEnemyCount(actualSpawnedCount: int)
      modifies this`totalEnemies, this`killedEnemies
      ensures totalEnemies == actualSpawnedCount && killedEnemies == 0
    {
      totalEnemies := actualSpawnedCount;
      killedEnemies := 0;
    }

    /** `EnemyKilled`: one more kill; the boss dungeon's portal opens at
        once, any other when the kill test holds. An open portal stays open. */
    method EnemyKilled()
      modifies this`killedEnemies, this`isPortalActive, this`visible
      ensures killedEnemies == old(killedEnemies) + 1
      ensures isPortalActive ==
        (old(isPortalActive) || isBossDungeon || ShouldActivate(isBossDungeon, killedEnemies, totalEnemies, requiredKillPercentage))
      ensures isPortalActive && !old(isPortalActive) ==> visible
      ensures !isPortalActive ==> visible == old(visible)
      ensures old(isPortalActive) ==> visible == (old(visible) || isBossDungeon)
    {
      killedEnemies := killedEnemies + 1;
      if isBossDungeon {
        ActivatePortal();
      }
      UpdatePortalState();
    }

    /** `UpdatePortalState`: opens the portal when the kill test holds; with
        no enemies registered it does nothing. */
    method UpdatePortalState()
      modifies this`isPortalActive, this`visible
      ensures totalEnemies <= 0 ==> unchanged(this)
      ensures isPortalActive == (old(isPortalActive) || ShouldActivate(isBossDungeon, killedEnemies, totalEnemies, requiredKillPercentage))
      ensures isPortalActive && !old(isPortalActive) ==> visible
      ensures !isPortalActive || old(isPortalActive) ==> visible == old(visible)
    {
      if totalEnemies <= 0 {
        return;
      }
      var shouldActivate := if isBossDungeon then killedEnemies > 0
        else killedEnemies as real / totalEnemies as real >= requiredKillPercentage;
      if shouldActivate && !isPortalActive {
        ActivatePortal();
      }
    }

    /** `ActivatePortal`. */
    method ActivatePortal()
      modifies this`isPortalActive, this`visible
      ensures isPortalActive && visible
    {
      isPortalActive := true;
      visible := true;
    }

    /** `ResetDungeonData`: both counters go to zero, every flag is cleared
        and the selector forgets the chosen dungeon. */
    method ResetDungeonData()
      modifies this`totalEnemies, this`killedEnemies, this`isPortalActive, this`returnedFromDungeon, this`isBossDungeon
      modifies if dungeonSelector != null then {dungeonSelector, dungeonSelector.loader} else {}
      ensures totalEnemies == 0 && killedEnemies == 0
      ensures !isPortalActive && !returnedFromDungeon && !isBossDungeon
      ensures visible == old(visible)
      ensures dungeonSelector != null ==>
        && !dungeonSelector.hasChosenDungeon
        && dungeonSelector.GetSelectedDungeon().None?
    {
      totalEnemies := 0;
      killedEnemies := 0;
      isPortalActive := false;
      returnedFromDungeon := false;
      isBossDungeon := false;
      if dungeonSelector != null {
        dungeonSelector.ResetDungeonChoice();
      }
    }
  }
}
