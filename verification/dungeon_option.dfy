/** The dungeon offers of the safe area, the data of the dungeon the player
    chose, and the loader that carries that choice into the dungeon scene. */
module DungeonOptions {
  import opened Common
  import opened TomeTypes

  /** `DungeonOption`: a dungeon offer and the global upgrade it grants.
      The selector and the enemy manager also read an `isBossDungeon` flag of
      it, so the flag is part of the record here. */
  datatype DungeonOption = DungeonOption(
    dungeonName: string,
    upgradeName: string,
    upgradeType: UpgradeType,
    upgradeValue: real,
    roomCountMin: int,
    roomCountMax: int,
    isBossDungeon: bool)

  /** `DungeonData`, as the selector fills it in. */
  datatype DungeonData = DungeonData(
    dungeonName: string,
    upgradeName: string,
    upgradeType: UpgradeType,
    upgradeValue: real,
    roomCount: int)

  /** `DungeonLoader`: the choice carried across the scene load. */
  class DungeonLoader {
    var currentDungeonData: Option<DungeonData>

    constructor ()
      ensures currentDungeonData == Option.None
    {
      currentDungeonData := Option.None;
    }
  }
}
