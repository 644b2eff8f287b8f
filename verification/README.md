# Dungeon roguelike core in Dafny

This project models the game logic of a Unity roguelike. The player is sent from a safe hub into procedurally generated dungeons. They kill enemies to open a return portal, gain experience and level-ups, and equip up to three spell tomes. Clearing dungeons unlocks a boss dungeon, and beating the boss wins the game.

The model follows the C# scripts one module per script:

- **Dungeon building.**
  - `Rooms` covers `Room`'s connector queries.
  - `DungeonLayout` gives the value-level description of a generated layout. It has specification functions for overlap, hallway/room placement, loop closing and capping.
  - `DungeonGeneration` holds the `DungeonGenerator` class. It grows a dungeon from a start room, attaches hallways and rooms at free connectors, rejects overlapping candidates, closes near connector pairs and caps every connector still free.
- **Dungeon flow.**
  - `DungeonOptions` holds the offered dungeons and the loader's current data.
  - `DungeonProgress` holds `DungeonProgressManager`: the completion counter, the boss unlock and the win.
  - `DungeonSelection` holds `DungeonSelector`: three offers drawn without repetition, or the boss dungeon three times.
  - `Portal` holds `TeleportingPortal`'s kill tracking.
  - `SpawnPoints` holds `RoomSpawnPoints.AutoPopulateChildren`.
- **Enemies.**
  - `EnemyStatistics` covers `EnemyStats.GetScaledVersion`.
  - `Enemies` holds `EnemyController`'s state machine, damage and death.
  - `EnemyManagement` holds `DungeonEnemyManager`: the total-count estimate, the start room, activating rooms near the player, populating a room over its spawn zones, and returning enemies to the pools.
  - `ObjectPools` holds the FIFO `ObjectPool`.
- **Player.**
  - `PlayerStats` holds `PlayerStatManager`.
  - `Leveling` holds `PlayerLeveling`: experience, the level curve, the upgrade pool, drawing upgrade options and applying them.
- **Tomes.**
  - `TomeTypes` gives the enums.
  - `TomeInventories` holds the three-slot `TomeInventory`.
  - `TomeControllers` holds `TomeController`: equipping, swapping, the active slot, the global damage bonus and tome upgrades.
  - `TomeMenus` covers `TomeAssignmentMenu.FormatTomeName` and the list of offered tomes.
- **Persistence.** `PersistentObjects` holds `PersistentObjectManager`, the registry of objects that survive scene loads.
- **Shared.** `Common` holds geometry, `Option` and `GameObject`. `Sampling` covers drawing without replacement.

Scripts whose methods update fields in place are classes with `modifies` clauses. Each method is specified by a value-level function of the old state, and lemmas prove what the game relies on about those functions. Pure helpers are functions and lemmas.

The engine is replaced by parameters:

- Every `Random.Range` and `Random.value` call is the next value of a supplied stream. An integer draw `Random.Range(lo, hi)` is `lo + rand(k) % (hi - lo)`, and `lo` when the range is empty. A float draw comes from a `roll` stream.
- `NavMesh.SamplePosition` is a supplied function of the point, the radius and a draw index.
- `Instantiate` allocates a fresh `GameObject`.
- Floats are `real`s.

Two details of the generator:

- The growth loop's quota counts rooms only (`Assets/Game/Scripts/Dungeon/DungeonGenerator.cs:89`). The success test after generation counts rooms and hallways together (`Assets/Game/Scripts/Dungeon/DungeonGenerator.cs:55`).
- The boss layout is never capped.

The scripts are internally inconsistent in three places:

- `DungeonOption` has no `isBossDungeon` field although `DungeonSelector` reads it. The model gives the record that field.
- `TomeController` has no `ApplyGlobalAttackSpeed` although `PlayerLeveling` calls it. The model makes that upgrade change nothing.
- `DungeonGenerator` has no `lastSpawnRoom` although `DungeonEnemyManager.IsStartRoom` reads it. The model tests the start room only.

## Model

| member | source | states |
|---|---|---|
| Common.SqDist | Assets/Game/Scripts/Dungeon/DungeonGenerator.cs:275-279 | squared distance is never negative; a `Vector3.Distance(p, q) < d` test is made on squares, so no root is taken |
| Common.Expand | Assets/Game/Scripts/Dungeon/DungeonGenerator.cs:224 | `Bounds.Expand(0.5f)` moves every face of the box outwards by half the amount |
| Common.Pick | Assets/Game/Scripts/Dungeon/Room.cs:27 | `Random.Range(0, n)` answers an index below `n`, and 0 for an empty range |
| Common.RangeInt | Assets/Game/Scripts/Dungeon/DungeonSelector.cs:137 | `Random.Range(lo, hi)` on ints lies in `[lo, hi)` whenever that range is non-empty |
| Rooms.AvailableConnections | Assets/Game/Scripts/Dungeon/Room.cs:31-41 | exactly the connectors that are not connected, each once, in array order |
| Rooms.CountIsLengthOfAvailable | Assets/Game/Scripts/Dungeon/Room.cs:43-52 | the free-connector count equals the length of the free-connector list |
| Rooms.CountPositiveIffFree | Assets/Game/Scripts/Dungeon/Room.cs:43-52 | the count is positive if and only if some connector is free |
| Rooms.GetAvailableConnection | Assets/Game/Scripts/Dungeon/Room.cs:16-29 | null if and only if every connector is connected; otherwise a free connector from the free list (the queries are functions, so no flag changes) |
| Sampling.RemoveAtTakesOne | Assets/Game/Scripts/Player/PlayerLeveling.cs:197 | `RemoveAt` takes exactly the chosen entry out of the multiset |
| Sampling.DrawSteps | Assets/Game/Scripts/Player/PlayerLeveling.cs:186-201 | after `i` draws exactly `i` entries were offered and the copied pool shrank by `i` |
| Sampling.DrawStepsStep | Assets/Game/Scripts/Player/PlayerLeveling.cs:193-199 | one loop pass (draw an index below the rest's size, offer that entry, remove it) is one more draw step |
| Sampling.DrawStepsKeepPool | Assets/Game/Scripts/Player/PlayerLeveling.cs:186-201 | offers and rest together are always the pool as a multiset: nothing is offered twice and nothing lost |
| Sampling.Draw | Assets/Game/Scripts/Player/PlayerLeveling.cs:186-201 | `min(count, pool size)` offers (none for a negative count), all taken from the pool |
| Sampling.SubsetOfDistinct | Assets/Game/Scripts/Dungeon/DungeonSelector.cs:66-81 | offers drawn from a repetition-free pool are pairwise different |
| TomeTypes.AllTomeTypesComplete | Assets/Game/Scripts/Tomes/TomeDefinitions.cs:1-7 | the enum listing holds every tome type exactly once |
| TomeInventories.FirstIndexFrom | Assets/Game/Scripts/Tomes/TomeInventory.cs:32-44 | the first slot showing the tome type, and none exactly when no slot shows it |
| TomeInventories.Equip | Assets/Game/Scripts/Tomes/TomeInventory.cs:27-50 | an index outside 0..2 changes nothing; otherwise the target shows the new tome; if it was shown in slot `i` (first match) slot `i` receives the target's old tome and the third slot is unchanged; if it was not shown only the target changes |
| TomeInventories.EquipSwapPermutes | Assets/Game/Scripts/Tomes/TomeInventory.cs:32-44 | the swap branch rearranges the three slots without adding or losing a tome type |
| TomeInventories.EquipKeepsAtMostOnce | Assets/Game/Scripts/Tomes/TomeInventory.cs:27-50 | a tome type shown at most once before an equip is shown at most once after it |
| TomeInventories.TomeInventory.constructor | Assets/Game/Scripts/Tomes/TomeInventory.cs:19-25 | three slots, each showing no tome |
| TomeInventories.TomeInventory.EquipTome | Assets/Game/Scripts/Tomes/TomeInventory.cs:27-50 | the slots become `Equip` of the old slots; the controller is called (`Assign`) only in the branch that writes a tome not shown before, and is untouched otherwise |
| TomeControllers.Clamp | Assets/Game/Scripts/Tomes/TomeController.cs:74 | `Mathf.Clamp`: the result lies in range, equals the value when it is in range and the nearer bound otherwise |
| TomeControllers.EquipSlots | Assets/Game/Scripts/Tomes/TomeController.cs:43-67 | a slot outside 0..2 is ignored; otherwise a fresh instance of the prefab's type sits in the slot, active exactly when the slot is the active one, with the global bonus added to its damage multiplier; other slots unchanged |
| TomeControllers.EquipKeepsActiveConsistent | Assets/Game/Scripts/Tomes/TomeController.cs:54-62 | equipping keeps "an instance is active exactly in the active slot" |
| TomeControllers.FirstOfTypeFrom | Assets/Game/Scripts/Tomes/TomeController.cs:97-105 | the first slot holding an instance of the type, none exactly when no slot does |
| TomeControllers.FindPrefab | Assets/Game/Scripts/Tomes/TomeController.cs:126 | the first prefab of the type in list order; none exactly when no prefab has that type |
| TomeControllers.AssignSwapsEquippedTome | Assets/Game/Scripts/Tomes/TomeController.cs:108-122 | a tome equipped in another slot moves into the target with the target's active state, the target's instance moves back, the third slot is untouched; an empty target makes the second update throw (the moved slot stays empty) |
| TomeControllers.AssignEquipsPrefab | Assets/Game/Scripts/Tomes/TomeController.cs:123-131 | otherwise the first prefab of the type is equipped in the target slot, and nothing changes when no prefab matches |
| TomeControllers.CountOfUpdate | Assets/Game/Scripts/Tomes/TomeController.cs:108-122 | overwriting one slot changes the count of a type by what leaves and what arrives |
| TomeControllers.AssignKeepsAtMostOnce | Assets/Game/Scripts/Tomes/TomeController.cs:94-134 | no duplicate tomes: a type held by at most one slot before `AssignTomeToSlot` is held by at most one slot after |
| TomeControllers.AssignKeepsActiveConsistent | Assets/Game/Scripts/Tomes/TomeController.cs:94-134 | `AssignTomeToSlot` keeps every instance active exactly when it sits in the active slot |
| TomeControllers.ActivateMovesActiveFlag | Assets/Game/Scripts/Tomes/TomeController.cs:69-80 | switching the active slot turns the old slot's instance off and the new one's on, changes no other field, and keeps the active states consistent with the new index |
| TomeControllers.BonusReachesUpToFirstEmpty | Assets/Game/Scripts/Tomes/TomeController.cs:136-151 | the bonus is added to the damage multiplier of exactly the instances before the first empty slot (where the loop throws) and the loop completes iff no slot is empty |
| TomeControllers.SameFirstEmpty | Assets/Game/Scripts/Tomes/TomeController.cs:147-150 | the first empty slot depends only on the slots from that point on |
| TomeControllers.UpgradeTome | Assets/Game/Scripts/Tomes/TomeController.cs:167-198 | an upgrade keeps an instance's type, subclass, active state and damage multiplier; only projectile speed/size on a fireball and area/damage-over-time on a meteorite change anything |
| TomeControllers.UpgradeSlots | Assets/Game/Scripts/Tomes/TomeController.cs:153-199 | only the first equipped instance of the type is upgraded; with none equipped nothing changes |
| TomeControllers.UpgradeKeepsCountsAndActivity | Assets/Game/Scripts/Tomes/TomeController.cs:153-199 | upgrades change no tome counts and keep the active states consistent |
| TomeControllers.TomeController.constructor | Assets/Game/Scripts/Tomes/TomeController.cs:14-20 | three empty slots, slot 0 active, no global bonus |
| TomeControllers.TomeController.InitializeTomes | Assets/Game/Scripts/Tomes/TomeController.cs:35-41 | each slot holds a fresh blank tome, and only the active slot's is active |
| TomeControllers.TomeController.EquipTome | Assets/Game/Scripts/Tomes/TomeController.cs:43-67 | the slots become `EquipSlots` of the old slots |
| TomeControllers.TomeController.SetActiveTome | Assets/Game/Scripts/Tomes/TomeController.cs:69-80 | the active index becomes the clamped index and the flags move as `Activate` describes |
| TomeControllers.TomeController.AssignTomeToSlot | Assets/Game/Scripts/Tomes/TomeController.cs:94-134 | the new slots and the completion flag are those of `Assign` on the old slots |
| TomeControllers.TomeController.FindEquipped | Assets/Game/Scripts/Tomes/TomeController.cs:97-105 | the search loop answers the first slot holding the type, or -1 exactly when none does |
| TomeControllers.TomeController.SwapSlots | Assets/Game/Scripts/Tomes/TomeController.cs:108-122 | the two slots are exchanged and each given its new slot's active state; an empty target stops after the first update |
| TomeControllers.TomeController.ApplyGlobalDamageBonus | Assets/Game/Scripts/Tomes/TomeController.cs:136-151 | the global bonus grows by the amount and the slots become `BonusFrom` of the old slots |
| TomeControllers.TomeController.ApplyTomeUpgrade | Assets/Game/Scripts/Tomes/TomeController.cs:153-199 | the slots become `UpgradeSlots` of the old slots |
| TomeMenus.SpaceBeforeUpper | Assets/Game/Scripts/Tomes/TomeAssignemntMenu.cs:146-152 | one space is added per upper-case character |
| TomeMenus.InsertSpaces | Assets/Game/Scripts/Tomes/TomeAssignemntMenu.cs:140-153 | empty for an empty name; otherwise the first character is kept and the length grows by the upper-case count after index 0 |
| TomeMenus.DropSpacesAppend | Assets/Game/Scripts/Tomes/TomeAssignemntMenu.cs:140-153 | removing spaces distributes over concatenation |
| TomeMenus.SpaceBeforeUpperDropsBack | Assets/Game/Scripts/Tomes/TomeAssignemntMenu.cs:146-152 | the loop inserts nothing but spaces |
| TomeMenus.InsertSpacesKeepsCharacters | Assets/Game/Scripts/Tomes/TomeAssignemntMenu.cs:140-153 | before the final replace every input character is kept in order and exactly one space is inserted per upper-case character after index 0 |
| TomeMenus.RemoveAllWithoutOccurrence | Assets/Game/Scripts/Tomes/TomeAssignemntMenu.cs:155 | `Replace(" Tome", "")` leaves a text without the pattern unchanged |
| TomeMenus.RemoveAllSkipsPrefix | Assets/Game/Scripts/Tomes/TomeAssignemntMenu.cs:155 | a prefix free of the pattern's first character is copied through |
| TomeMenus.SpaceBeforeUpperLowerCase | Assets/Game/Scripts/Tomes/TomeAssignemntMenu.cs:146-152 | a text without upper-case letters gets no spaces |
| TomeMenus.SpaceBeforeUpperAppend | Assets/Game/Scripts/Tomes/TomeAssignemntMenu.cs:146-152 | the loop works character by character, so it distributes over concatenation |
| TomeMenus.SpacedWord | Assets/Game/Scripts/Tomes/TomeAssignemntMenu.cs:146-152 | a capitalised word gets exactly one space before it |
| TomeMenus.RemoveTrailingPattern | Assets/Game/Scripts/Tomes/TomeAssignemntMenu.cs:155 | a trailing " Tome" after a word is removed and the word kept |
| TomeMenus.KeepSeparator | Assets/Game/Scripts/Tomes/TomeAssignemntMenu.cs:155 | a space that does not start " Tome" is kept |
| TomeMenus.DiffersAt | Assets/Game/Scripts/Tomes/TomeAssignemntMenu.cs:155 | one differing character rules out an occurrence |
| TomeMenus.FormatTomeName | Assets/Game/Scripts/Tomes/TomeAssignemntMenu.cs:136-156 | `None` gives ""; any other type the spaced enum name with every " Tome" removed |
| TomeMenus.FormatOneWordTome | Assets/Game/Scripts/Tomes/TomeAssignemntMenu.cs:136-156 | a tome whose enum name is one capitalised word followed by "Tome" is shown as that word alone |
| TomeMenus.FormatFireball | Assets/Game/Scripts/Tomes/TomeAssignemntMenu.cs:136-156 | `FireballTome` is shown as "Fireball" |
| TomeMenus.FormatMeteorite | Assets/Game/Scripts/Tomes/TomeAssignemntMenu.cs:136-156 | `MeteoriteTome` is shown as "Meteorite" |
| TomeMenus.FormatIceHail | Assets/Game/Scripts/Tomes/TomeAssignemntMenu.cs:136-156 | `IceHailTome` is shown as "Ice Hail" |
| TomeMenus.SpacedOneWordTome | Assets/Game/Scripts/Tomes/TomeAssignemntMenu.cs:140-153 | a one-word tome name `XyzTome` is spaced as "Xyz Tome" |
| TomeMenus.SpacedTwoWordTome | Assets/Game/Scripts/Tomes/TomeAssignemntMenu.cs:140-153 | a two-word tome name `XyzAbcTome` is spaced as "Xyz Abc Tome" |
| TomeMenus.FormatTomeNameEmptyIffNone | Assets/Game/Scripts/Tomes/TomeAssignemntMenu.cs:136-156 | the label is empty if and only if the type is `None` |
| TomeMenus.WithoutNone | Assets/Game/Scripts/Tomes/TomeAssignemntMenu.cs:24-27 | the other enum values, all taken from the listing and none of them `None` |
| TomeMenus.TomeAssignmentMenu.constructor | Assets/Game/Scripts/Tomes/TomeAssignemntMenu.cs:15 | a new menu offers no tomes until Start |
| TomeMenus.TomeAssignmentMenu.Start | Assets/Game/Scripts/Tomes/TomeAssignemntMenu.cs:20-32 | the list becomes `None` followed by the other enum values in enum order |
| TomeMenus.WithoutNoneAppend | Assets/Game/Scripts/Tomes/TomeAssignemntMenu.cs:24-27 | the filter loop extends the list by one enum value at a time |
| TomeMenus.AvailableTomesListEveryTypeOnce | Assets/Game/Scripts/Tomes/TomeAssignemntMenu.cs:22-27 | the menu offers `None` first and then every tome type exactly once, in enum order |
| DungeonOptions.DungeonLoader.constructor | Assets/Game/Scripts/Dungeon/DungeonLoader.cs:6 | a new loader carries no dungeon data |
| DungeonProgress.DungeonUpgrade | Assets/Game/Scripts/Dungeon/DungeonProgressManager.cs:60-76 | the upgrade a cleared dungeon grants has the dungeon's upgrade type and value and targets no particular tome |
| DungeonProgress.CountedCompletionKeepsUnlocked | Assets/Game/Scripts/Dungeon/DungeonProgressManager.cs:37-48 | a counted completion keeps "unlocked exactly when the count has reached the quota", and an unlocked boss stays unlocked |
| DungeonProgress.UnlocksAtQuota | Assets/Game/Scripts/Dungeon/DungeonProgressManager.cs:30-49 | from a fresh start, after `n` completions the counter is `n` and the boss is unlocked if and only if `n` reaches the quota |
| DungeonProgress.DungeonProgressManager.constructor | Assets/Game/Scripts/Dungeon/DungeonProgressManager.cs:11-18 | no dungeon cleared, boss locked and not beaten, no event fired |
| DungeonProgress.DungeonProgressManager.CompleteDungeon | Assets/Game/Scripts/Dungeon/DungeonProgressManager.cs:30-49 | while the boss is unlocked and unbeaten the counter stays and the win fade starts; otherwise the upgrade is applied, and then either the upgrade threw, so nothing of the manager changes and the call reports it did not complete, or the counter rises by exactly one and the boss unlocks (its event firing once) at the quota |
| DungeonProgress.DungeonProgressManager.SetBossDungeonCompleted | Assets/Game/Scripts/Dungeon/DungeonProgressManager.cs:51-58 | idempotent: the boss is beaten afterwards and its event has fired exactly once |
| DungeonProgress.DungeonProgressManager.ApplyDungeonUpgrade | Assets/Game/Scripts/Dungeon/DungeonProgressManager.cs:60-76 | with a dungeon and a leveling component the dungeon's upgrade is applied and its exception, if any, reported; otherwise the player's stats and the tome slots are unchanged and the call completes |
| DungeonProgress.DungeonProgressManager.FadeToWinMenu | Assets/Game/Scripts/Dungeon/DungeonProgressManager.cs:78-88 | the boss is marked beaten, its event fires and one win-menu load is started |
| DungeonSelection.FirstBoss | Assets/Game/Scripts/Dungeon/DungeonSelector.cs:39-50 | the first boss offer by position; none exactly when there is no boss offer |
| DungeonSelection.NonBossIndices | Assets/Game/Scripts/Dungeon/DungeonSelector.cs:66-74 | only positions of non-boss offers are collected |
| DungeonSelection.NonBossIndicesComplete | Assets/Game/Scripts/Dungeon/DungeonSelector.cs:66-74 | every non-boss offer is collected |
| DungeonSelection.NonBossIndicesDistinct | Assets/Game/Scripts/Dungeon/DungeonSelector.cs:66-74 | no position is collected twice |
| DungeonSelection.NormalSelection | Assets/Game/Scripts/Dungeon/DungeonSelector.cs:76-81 | three indices are drawn |
| DungeonSelection.NormalSelectionDistinct | Assets/Game/Scripts/Dungeon/DungeonSelector.cs:66-81 | the three shown offers are pairwise different and none is a boss dungeon |
| DungeonSelection.FirstNamed | Assets/Game/Scripts/Dungeon/DungeonSelector.cs:146-159 | the first offer with the name, none exactly when no offer has it |
| DungeonSelection.FirstNamedFindsOffer | Assets/Game/Scripts/Dungeon/DungeonSelector.cs:146-159 | with different names the lookup by an offer's name finds that offer |
| DungeonSelection.ChosenData | Assets/Game/Scripts/Dungeon/DungeonSelector.cs:129-138 | the data copies the offer's name and upgrade, and its room count lies in `[roomCountMin, roomCountMax]` |
| DungeonSelection.ReplaceNext | Assets/Game/Scripts/Dungeon/DungeonSelector.cs:76-81 | writing a drawn entry over the next button keeps the earlier draws and the later buttons |
| DungeonSelection.DungeonSelector.constructor | Assets/Game/Scripts/Dungeon/DungeonSelector.cs:7-17 | three buttons showing offer 0, no choice made |
| DungeonSelection.DungeonSelector.SelectRandomDungeons | Assets/Game/Scripts/Dungeon/DungeonSelector.cs:36-82 | boss mode: all three buttons show the first boss offer (unchanged if there is none); with at most three offers button `i` shows offer `i`; otherwise the buttons show `DrawSteps` of the non-boss list, failing only when fewer than three exist |
| DungeonSelection.DungeonSelector.FillWith | Assets/Game/Scripts/Dungeon/DungeonSelector.cs:43-50 | all three buttons show the same offer |
| DungeonSelection.DungeonSelector.CollectNonBoss | Assets/Game/Scripts/Dungeon/DungeonSelector.cs:66-74 | the collecting loop yields the non-boss positions in order |
| DungeonSelection.DungeonSelector.DrawThree | Assets/Game/Scripts/Dungeon/DungeonSelector.cs:76-81 | the buttons show the draws, one draw per button; an empty list stops the loop |
| DungeonSelection.DungeonSelector.ChooseDungeon | Assets/Game/Scripts/Dungeon/DungeonSelector.cs:122-144 | no-op for a button outside 0..2, an offer index out of range or a choice already made; otherwise the loader gets the offer's data with a room count in its bounds, the choice is recorded and the menu closes |
| DungeonSelection.DungeonSelector.GetSelectedDungeon | Assets/Game/Scripts/Dungeon/DungeonSelector.cs:146-159 | null before a choice or without a loader; otherwise an offer from the list |
| DungeonSelection.DungeonSelector.ResetDungeonChoice | Assets/Game/Scripts/Dungeon/DungeonSelector.cs:181-185 | the choice flag and the loader's data are cleared, so the lookup answers null |
| DungeonSelection.ChosenOfferIsSelected | Assets/Game/Scripts/Dungeon/DungeonSelector.cs:146-159 | after a choice, with different offer names, the lookup answers the chosen offer |
| Portal.ShouldActivateStaysTrue | Assets/Game/Scripts/Dungeon/TeleportingPortal.cs:173-185 | once the kill test holds, a further kill keeps it holding |
| Portal.AllKilledActivates | Assets/Game/Scripts/Dungeon/TeleportingPortal.cs:173-185 | in a normal dungeon killing every registered enemy opens the portal (required fraction at most 1) |
| Portal.ActivationPercentage | Assets/Game/Scripts/Dungeon/TeleportingPortal.cs:203-205 | the displayed percentage is capped at 100 and is not negative |
| Portal.FullPercentageIffActivates | Assets/Game/Scripts/Dungeon/TeleportingPortal.cs:203-205 | the display shows 100% exactly when the normal-dungeon kill test holds |
| Portal.QuotientAtLeastOne | Assets/Game/Scripts/Dungeon/TeleportingPortal.cs:203-205 | the fraction over the required fraction reaches 1 exactly when the fraction reaches the requirement |
| Portal.TeleportingPortal.constructor | Assets/Game/Scripts/Dungeon/TeleportingPortal.cs:66-74 | required fraction 0.75, counters at zero, portal inactive and hidden, boss flag read from the progress manager when there is one |
| Portal.TeleportingPortal.OnDungeonSceneLoaded | Assets/Game/Scripts/Dungeon/TeleportingPortal.cs:134-143 | the boss flag is read again when the progress manager exists, kept otherwise |
| Portal.TeleportingPortal.RegisterTotalEnemyCount | Assets/Game/Scripts/Dungeon/TeleportingPortal.cs:153-158 | the total becomes the given count and the kills restart at zero |
| Portal.TeleportingPortal.EnemyKilled | Assets/Game/Scripts/Dungeon/TeleportingPortal.cs:160-171 | exactly one more kill; the portal is open afterwards iff it was, the dungeon is the boss's, or the kill test holds; opening shows it; with the portal already open, a boss-dungeon kill shows it and any other kill leaves its visibility alone |
| Portal.TeleportingPortal.UpdatePortalState | Assets/Game/Scripts/Dungeon/TeleportingPortal.cs:173-185 | with no registered enemies nothing changes; otherwise the portal opens when the kill test holds and never closes |
| Portal.TeleportingPortal.ActivatePortal | Assets/Game/Scripts/Dungeon/TeleportingPortal.cs:187-191 | the portal is open and visible |
| Portal.TeleportingPortal.ResetDungeonData | Assets/Game/Scripts/Dungeon/TeleportingPortal.cs:317-329 | both counters are zero, every flag is cleared and the selector forgets its choice |
| ObjectPools.ObjectPool.constructor | Assets/Game/Scripts/Gameplay/ObjectPool.cs:11-21 | `initialSize` fresh, inactive, pairwise different objects are queued (none for a size below one) |
| ObjectPools.ObjectPool.CreateNewObject | Assets/Game/Scripts/Gameplay/ObjectPool.cs:23-28 | a fresh inactive copy of the prefab |
| ObjectPools.ObjectPool.GetObject | Assets/Game/Scripts/Gameplay/ObjectPool.cs:30-46 | the oldest queued object is dequeued, or a fresh one created when the queue is empty (the queue stays empty); the object returned is active at the requested position |
| ObjectPools.ObjectPool.ReturnObject | Assets/Game/Scripts/Gameplay/ObjectPool.cs:48-52 | the object is inactive and appended at the back of the queue |
| ObjectPools.ObjectPool.GetAllPooledObjects | Assets/Game/Scripts/Gameplay/ObjectPool.cs:54-57 | exactly the queued objects, front first |
| ObjectPools.FirstInFirstOut | Assets/Game/Scripts/Gameplay/ObjectPool.cs:30-52 | objects returned to an empty pool come back in the order they were returned |
| SpawnPoints.SpawnPointsOf | Assets/Game/Scripts/Dungeon/RoomSpawnPoints.cs:23-29 | exactly the children whose name starts with "SpawnPoint" |
| SpawnPoints.SpawnPointsOfAppend | Assets/Game/Scripts/Dungeon/RoomSpawnPoints.cs:23-29 | the filter keeps child order |
| SpawnPoints.RoomSpawnPoints.constructor | Assets/Game/Scripts/Dungeon/RoomSpawnPoints.cs:7-11 | no zones, spawn radius 3, not populated |
| SpawnPoints.RoomSpawnPoints.AutoPopulateChildren | Assets/Game/Scripts/Dungeon/RoomSpawnPoints.cs:20-30 | the previous zones are discarded and replaced by the spawn-point children, in child order |
| EnemyStatistics.GetScaledVersion | Assets/Game/Scripts/Enemy/EnemyStatManager.cs:18-30 | speed, attack rate and range are copied, the reward grows by 2 per level, the copy has the default scaling factors, and level 0 changes no statistic |
| EnemyStatistics.PowAdd | Assets/Game/Scripts/Enemy/EnemyStatManager.cs:22 | powers of the scaling factor multiply by adding exponents |
| EnemyStatistics.PowAtLeastOne | Assets/Game/Scripts/Enemy/EnemyStatManager.cs:22 | a factor of at least 1 raised to any level is at least 1 |
| EnemyStatistics.ScalingComposes | Assets/Game/Scripts/Enemy/EnemyStatManager.cs:18-30 | scaling a fresh instance by `a` levels and then `b` levels is scaling it by `a + b` levels |
| EnemyStatistics.ScalingNeverWeakens | Assets/Game/Scripts/Enemy/EnemyStatManager.cs:22-25 | with factors of at least 1 a scaled enemy has at least the base health and damage |
| PersistentObjects.PersistentName | Assets/Game/Scripts/Gameplay/PersistentObjectManager.cs:58 | the instance name is a fixed 11-character prefix followed by the key |
| PersistentObjects.NameIf | Assets/Game/Scripts/Gameplay/PersistentObjectManager.cs:49-61 | a registration adds its key exactly when its prefab is assigned |
| PersistentObjects.RegisteredNames | Assets/Game/Scripts/Gameplay/PersistentObjectManager.cs:33-47 | a key is registered exactly when some registration with that key has an assigned prefab |
| PersistentObjects.RegisteredNamesSnoc | Assets/Game/Scripts/Gameplay/PersistentObjectManager.cs:33-47 | each registration in turn adds its own key or nothing |
| PersistentObjects.RegisteredEight | Assets/Game/Scripts/Gameplay/PersistentObjectManager.cs:37-44 | the eight registrations made one after the other register `RegisteredNames` of the list |
| PersistentObjects.PersistentObjectManager.Prefabs | Assets/Game/Scripts/Gameplay/PersistentObjectManager.cs:37-44 | eight registrations with pairwise different keys |
| PersistentObjects.PersistentObjectManager.constructor | Assets/Game/Scripts/Gameplay/PersistentObjectManager.cs:9-18 | nothing registered, not initialised |
| PersistentObjects.PersistentObjectManager.CreatePersistent | Assets/Game/Scripts/Gameplay/PersistentObjectManager.cs:49-61 | a null prefab registers nothing; otherwise the key maps to a fresh renamed copy, overwriting any earlier entry, and no other key changes |
| PersistentObjects.PersistentObjectManager.InitializePersistentObjects | Assets/Game/Scripts/Gameplay/PersistentObjectManager.cs:33-47 | has effect at most once; afterwards exactly the assigned prefabs are registered |
| PersistentObjects.PersistentObjectManager.GetPersistentObject | Assets/Game/Scripts/Gameplay/PersistentObjectManager.cs:63-66 | null exactly for a key never registered; otherwise its object |
| PersistentObjects.LookupAfterInitialization | Assets/Game/Scripts/Gameplay/PersistentObjectManager.cs:33-66 | after initialisation a key finds an object iff it is one of the eight with an assigned prefab, and that object carries the persistent name |
| PersistentObjects.DistinctInstances | Assets/Game/Scripts/Gameplay/PersistentObjectManager.cs:57-60 | no object is registered under two keys |
| PersistentObjects.ManagerSlot.constructor | Assets/Game/Scripts/Gameplay/PersistentObjectManager.cs:6 | no manager instance yet |
| PersistentObjects.ManagerSlot.Awake | Assets/Game/Scripts/Gameplay/PersistentObjectManager.cs:20-31 | a second manager destroys itself and changes nothing; the first becomes the instance and initialises its objects |
| PlayerStats.DamageTaken | Assets/Game/Scripts/Player/PlayerStatManager.cs:61-65 | a hit deals the amount less armour but at least 1 |
| PlayerStats.Regenerated | Assets/Game/Scripts/Player/PlayerStatManager.cs:57 | a tick adds the regeneration amount but never exceeds the maximum |
| PlayerStats.ShortenedInterval | Assets/Game/Scripts/Player/PlayerStatManager.cs:92-95 | the interval shrinks by the amount but not below 0.1 seconds |
| PlayerStats.RegenerationNeverHurts | Assets/Game/Scripts/Player/PlayerStatManager.cs:52-59 | with a non-negative amount a tick never lowers health and keeps it at most the maximum |
| PlayerStats.PlayerStatManager.constructor | Assets/Game/Scripts/Player/PlayerStatManager.cs:22-32 | full health of 100, base speed 5, no armour, regeneration 1 every 3 seconds, alive |
| PlayerStats.PlayerStatManager.Update | Assets/Game/Scripts/Player/PlayerStatManager.cs:34-41 | the death flag latches once health is at or below zero and is never cleared |
| PlayerStats.PlayerStatManager.RegenerationTick | Assets/Game/Scripts/Player/PlayerStatManager.cs:57 | health becomes `Regenerated` of the old health, so at most the maximum |
| PlayerStats.PlayerStatManager.TakeDamage | Assets/Game/Scripts/Player/PlayerStatManager.cs:61-65 | health drops by `max(1, amount - armour)`, so by at least 1 |
| PlayerStats.PlayerStatManager.IncreaseHealth | Assets/Game/Scripts/Player/PlayerStatManager.cs:76-80 | maximum and current health rise by the same amount, keeping the missing health |
| PlayerStats.PlayerStatManager.IncreaseArmour | Assets/Game/Scripts/Player/PlayerStatManager.cs:82 | armour is purely additive |
| PlayerStats.PlayerStatManager.IncreaseMovementSpeed | Assets/Game/Scripts/Player/PlayerStatManager.cs:84-88 | speed is purely additive |
| PlayerStats.PlayerStatManager.IncreaseLifeRegenerationAmount | Assets/Game/Scripts/Player/PlayerStatManager.cs:90 | the regeneration amount is purely additive |
| PlayerStats.PlayerStatManager.IncreaseLifeRegenerationSpeed | Assets/Game/Scripts/Player/PlayerStatManager.cs:92-95 | the interval shrinks but stays at least 0.1 seconds |
| Leveling.ExperienceForLevel | Assets/Game/Scripts/Player/PlayerLeveling.cs:256-261 | level 1 and below need no experience |
| Leveling.ClosedFormStep | Assets/Game/Scripts/Player/PlayerLeveling.cs:260 | the closed form grows by one more per-level cost |
| Leveling.ClosedFormIsSeries | Assets/Game/Scripts/Player/PlayerLeveling.cs:260 | the closed form is the sum of the per-level costs `base * growth^k` |
| Leveling.ExperienceIsSeries | Assets/Game/Scripts/Player/PlayerLeveling.cs:256-261 | the threshold for a level is the cost of every level from 2 up to it |
| Leveling.ExperienceIncreasing | Assets/Game/Scripts/Player/PlayerLeveling.cs:256-261 | with positive base cost and growth, every level needs more experience than the one before |
| Leveling.FractionBelowOne | Assets/Game/Scripts/Player/PlayerLeveling.cs:263-273 | experience within the level range gives progress in `[0, 1)` |
| Leveling.UpgradePoolDistinct | Assets/Game/Scripts/Player/PlayerLeveling.cs:57-156 | the pool's entries are pairwise different |
| Leveling.OffersAreDistinct | Assets/Game/Scripts/Player/PlayerLeveling.cs:186-201 | a level-up offers three pairwise different upgrades |
| Leveling.HandlerOf | Assets/Game/Scripts/Player/PlayerLeveling.cs:210-238 | the six tome upgrades go to the tome controller, movement speed and cooldown reduction to nothing, the rest each to its one stat |
| Leveling.PlayerLeveling.constructor | Assets/Game/Scripts/Player/PlayerLeveling.cs:19-40 | level 1, no experience, the upgrade pool listed |
| Leveling.PlayerLeveling.LevelProgress | Assets/Game/Scripts/Player/PlayerLeveling.cs:263-273 | progress is 0 when the level's range is empty, and in `[0, 1)` while the experience lies within it |
| Leveling.PlayerLeveling.AddExperience | Assets/Game/Scripts/Player/PlayerLeveling.cs:158-170 | experience grows by the amount; the level rises by one, with three offers drawn, exactly when the new total reaches the next threshold |
| Leveling.PlayerLeveling.LevelUp | Assets/Game/Scripts/Player/PlayerLeveling.cs:172-179 | one level more and the offers of `GetRandomUpgradeOptions(3)` |
| Leveling.PlayerLeveling.GetRandomUpgradeOptions | Assets/Game/Scripts/Player/PlayerLeveling.cs:186-201 | the offers are `Draw` of the pool (at most `count`, pairwise different) and the pool itself is unchanged |
| Leveling.PlayerLeveling.ApplyUpgrade | Assets/Game/Scripts/Player/PlayerLeveling.cs:203-241 | without a tome controller nothing changes; otherwise the upgrade type reaches exactly its one stat or tome operation, every other stat, the tome slots and the active slot staying as they were; the call fails to complete exactly when a global damage bonus meets an empty slot, where the C# loop throws |
| Enemies.RoutineFor | Assets/Game/Scripts/Enemy/EnemyController.cs:146-157 | every living state starts its own routine; Dead starts none |
| Enemies.StateGuards | Assets/Game/Scripts/Enemy/EnemyController.cs:126-158 | a dead enemy enters no state but Dead; re-entering the current state is ignored unless it is Idle; every other change of a living enemy goes through |
| Enemies.EnemyController.constructor | Assets/Game/Scripts/Enemy/EnemyController.cs:27-40 | uninitialised, alive, Idle, not burning, no routine running |
| Enemies.EnemyController.SetState | Assets/Game/Scripts/Enemy/EnemyController.cs:126-158 | an allowed change sets the state and its routine; a refused one changes nothing |
| Enemies.EnemyController.Initialize | Assets/Game/Scripts/Enemy/EnemyController.cs:77-92 | health is the maximum, the enemy is alive, the cooldown is `1 / attackSpeed` and the state Idle |
| Enemies.EnemyController.Die | Assets/Game/Scripts/Enemy/EnemyController.cs:407-448 | idempotent; the first call sets the dead flag and Dead, stops all routines, adds the reward to the player's experience and counts one kill at the portal |
| Enemies.EnemyController.TakeDamage | Assets/Game/Scripts/Enemy/EnemyController.cs:390-405 | ignored before initialisation and after death; otherwise health drops by the damage and the enemy dies exactly when health reaches zero or below |
| Enemies.EnemyController.StartBurning | Assets/Game/Scripts/Enemy/EnemyController.cs:359-369 | a burn starts exactly on a living enemy that is not already burning |
| Enemies.EnemyController.BurnLatchSurvivesReuse | Assets/Game/Scripts/Enemy/EnemyController.cs:359-421 | an enemy killed by another hit while burning keeps its burn flag through death and re-initialisation, so once reused from the pool it cannot be set on fire again (a death from the burn tick itself clears the flag) |
| EnemyManagement.RangeReal | Assets/Game/Scripts/Enemy/DungeonEnemyManager.cs:377 | `Random.Range(lo, hi)` on floats lies in `[lo, hi]` |
| EnemyManagement.ValidEnemiesExactly | Assets/Game/Scripts/Enemy/DungeonEnemyManager.cs:370-372 | the filter keeps exactly the configurations listing the room type |
| EnemyManagement.TotalWeightSnoc | Assets/Game/Scripts/Enemy/DungeonEnemyManager.cs:376 | the weight sum adds one configuration at a time |
| EnemyManagement.WeightedPickIn | Assets/Game/Scripts/Enemy/DungeonEnemyManager.cs:380-385 | the weighted choice is one of the configurations scanned |
| EnemyManagement.WeightedPickStep | Assets/Game/Scripts/Enemy/DungeonEnemyManager.cs:380-385 | the scan stops at the first configuration whose running weight reaches the roll |
| EnemyManagement.WeightedPickFinds | Assets/Game/Scripts/Enemy/DungeonEnemyManager.cs:376-387 | with non-negative weights a roll within the total always finds a configuration |
| EnemyManagement.TotalWeightBothWays | Assets/Game/Scripts/Enemy/DungeonEnemyManager.cs:376 | summing weights front to back or back to front agrees |
| EnemyManagement.ChooseEnemy | Assets/Game/Scripts/Enemy/DungeonEnemyManager.cs:368-388 | null iff no configuration lists the room type; otherwise the choice lists it |
| EnemyManagement.NoFallbackNeeded | Assets/Game/Scripts/Enemy/DungeonEnemyManager.cs:380-387 | with non-negative weights the fallback to the first valid configuration is never taken |
| EnemyManagement.NonNullZonesExactly | Assets/Game/Scripts/Enemy/DungeonEnemyManager.cs:274-282 | exactly the set zones are collected |
| EnemyManagement.NonNullZonesSnoc | Assets/Game/Scripts/Enemy/DungeonEnemyManager.cs:276-282 | each zone in turn is appended when set |
| EnemyManagement.ZonesToUse | Assets/Game/Scripts/Enemy/DungeonEnemyManager.cs:293 | the number of zones to use lies in `[1, available]` |
| EnemyManagement.SelectedZones | Assets/Game/Scripts/Enemy/DungeonEnemyManager.cs:290-299 | exactly that many zones are selected |
| EnemyManagement.SelectedZonesDistinct | Assets/Game/Scripts/Enemy/DungeonEnemyManager.cs:290-299 | the selected zones are pairwise different |
| EnemyManagement.CeilDiv | Assets/Game/Scripts/Enemy/DungeonEnemyManager.cs:308 | `Mathf.CeilToInt(a / b)` is the least integer not below the quotient, between 1 and `a` |
| EnemyManagement.ZoneShare | Assets/Game/Scripts/Enemy/DungeonEnemyManager.cs:308-309 | a zone's share is at least 1 and never more than remain |
| EnemyManagement.RemainingBounds | Assets/Game/Scripts/Enemy/DungeonEnemyManager.cs:301-319 | the remaining count never goes negative and never grows |
| EnemyManagement.Requested | Assets/Game/Scripts/Enemy/DungeonEnemyManager.cs:301-319 | the enemies requested over all zones number at most the drawn count |
| EnemyManagement.RemainingStays | Assets/Game/Scripts/Enemy/DungeonEnemyManager.cs:306 | once nothing remains, later zones assign nothing |
| EnemyManagement.OneZoneTakesAll | Assets/Game/Scripts/Enemy/DungeonEnemyManager.cs:301-319 | a single zone is asked for the whole count |
| EnemyManagement.FiveOverThreeRequestsFour | Assets/Game/Scripts/Enemy/DungeonEnemyManager.cs:301-319 | the total is not always reached: 5 over 3 zones is requested as 2, 1, 1 |
| EnemyManagement.CollectZones | Assets/Game/Scripts/Enemy/DungeonEnemyManager.cs:274-282 | the collecting loop yields the set zones |
| EnemyManagement.SelectZones | Assets/Game/Scripts/Enemy/DungeonEnemyManager.cs:290-299 | the drawing loop yields `SelectedZones`, one draw for the number and one per zone |
| EnemyManagement.DrawZone | Assets/Game/Scripts/Enemy/DungeonEnemyManager.cs:296-298 | one pass of the zone draw is one more `DrawSteps` step |
| EnemyManagement.RemoveFirstTakesOne | Assets/Game/Scripts/Enemy/DungeonEnemyManager.cs:481 | `List.Remove` takes out exactly one occurrence when there is one and changes nothing otherwise |
| EnemyManagement.TrackedCountOther | Assets/Game/Scripts/Enemy/DungeonEnemyManager.cs:472-493 | changing an untracked room's list leaves the tracked count |
| EnemyManagement.TrackedCountUpdate | Assets/Game/Scripts/Enemy/DungeonEnemyManager.cs:472-493 | replacing one tracked room's list changes the count by the difference in length |
| EnemyManagement.TrackedCountNewRoom | Assets/Game/Scripts/Enemy/DungeonEnemyManager.cs:261-264 | tracking a new room with an empty list keeps the count |
| EnemyManagement.TrackedCountPopulate | Assets/Game/Scripts/Enemy/DungeonEnemyManager.cs:261-325 | populating adds to the listed enemies exactly the enemies placed, as `totalSpawnedEnemies` does |
| EnemyManagement.FirstHolding | Assets/Game/Scripts/Enemy/DungeonEnemyManager.cs:476-490 | the first room in dictionary order whose list holds the enemy, none exactly when no list does |
| EnemyManagement.TrackedCountReturn | Assets/Game/Scripts/Enemy/DungeonEnemyManager.cs:476-490 | taking the enemy out of the first list holding it lowers the listed count by one; otherwise nothing changes |
| EnemyManagement.DungeonEnemyManager.constructor | Assets/Game/Scripts/Enemy/DungeonEnemyManager.cs:22-45 | 2 to 5 enemies per room, activation at 30 and deactivation at 40 units, nothing tracked, populated or active |
| EnemyManagement.DungeonEnemyManager.GetRandomEnemyForRoomType | Assets/Game/Scripts/Enemy/DungeonEnemyManager.cs:368-388 | null iff no configuration lists the room type (no draw made); otherwise `ChooseEnemy` on one float draw in `[0, total weight]` |
| EnemyManagement.DungeonEnemyManager.SpawnEnemyAtZone | Assets/Game/Scripts/Enemy/DungeonEnemyManager.cs:328-351 | succeeds exactly when a type exists and the position search succeeds; then one active enemy from the pool, at the found position, is appended to the room's list |
| EnemyManagement.DungeonEnemyManager.PopulateRoom | Assets/Game/Scripts/Enemy/DungeonEnemyManager.cs:253-326 | the start room of a normal dungeon is skipped; otherwise the room is tracked, a room without set zones stays unpopulated, and a populated room gains at most the requested enemies, each counted in the total |
| EnemyManagement.DungeonEnemyManager.PlaceInZones | Assets/Game/Scripts/Enemy/DungeonEnemyManager.cs:274-325 | without set zones nothing happens; otherwise the room is marked populated and at most the requested enemies are appended and counted |
| EnemyManagement.DungeonEnemyManager.TrackRoom | Assets/Game/Scripts/Enemy/DungeonEnemyManager.cs:261-264 | a room seen for the first time gets an empty list, last in dictionary order; a known room is unchanged |
| EnemyManagement.DungeonEnemyManager.SpawnInZone | Assets/Game/Scripts/Enemy/DungeonEnemyManager.cs:312-318 | at most the zone's share is placed, and each placed enemy is appended to the room's list |
| EnemyManagement.DungeonEnemyManager.DistributeEnemies | Assets/Game/Scripts/Enemy/DungeonEnemyManager.cs:301-319 | enemies placed over all zones number at most `Requested`; only the room's list grows |
| EnemyManagement.DungeonEnemyManager.ReturnEnemyToPool | Assets/Game/Scripts/Enemy/DungeonEnemyManager.cs:472-493 | without a pool nothing changes; otherwise the enemy leaves the first list holding it, the total drops by one exactly when one did, and the enemy is queued inactive |
| EnemyManagement.DungeonEnemyManager.AllRoomsTracked | Assets/Game/Scripts/Enemy/DungeonEnemyManager.cs:261-264 | every room in the dictionary order has a list |
| EnemyManagement.DungeonEnemyManager.ActivateRoomEnemies | Assets/Game/Scripts/Enemy/DungeonEnemyManager.cs:232-251 | every enemy listed for the room is active, in place |
| EnemyManagement.DungeonEnemyManager.DeactivateRoom | Assets/Game/Scripts/Enemy/DungeonEnemyManager.cs:450-470 | no enemy listed for the room is active, in place |
| EnemyManagement.DungeonEnemyManager.CountedRooms | Assets/Game/Scripts/Enemy/DungeonEnemyManager.cs:129-142 | at most every room receives a count |
| EnemyManagement.DungeonEnemyManager.DrawnTotal | Assets/Game/Scripts/Enemy/DungeonEnemyManager.cs:129-142 | each counted room adds between 2 and 5, one draw per counted room |
| EnemyManagement.DungeonEnemyManager.DrawTotal | Assets/Game/Scripts/Enemy/DungeonEnemyManager.cs:129-142 | the loop yields `DrawnTotal` |
| EnemyManagement.DungeonEnemyManager.CalculateTotalEnemyCount | Assets/Game/Scripts/Enemy/DungeonEnemyManager.cs:124-145 | the total is `DrawnTotal` and is handed to the portal once |
| EnemyManagement.DungeonEnemyManager.RegisterTotalEnemiesWithPortal | Assets/Game/Scripts/Enemy/DungeonEnemyManager.cs:166-173 | the first call with a portal registers the total (kills restart at zero); later calls change nothing |
| EnemyManagement.DungeonEnemyManager.NearRoomsSnoc | Assets/Game/Scripts/Enemy/DungeonEnemyManager.cs:194-198 | each room in turn is gathered when it is near |
| EnemyManagement.DungeonEnemyManager.NearRoomsExactly | Assets/Game/Scripts/Enemy/DungeonEnemyManager.cs:190-198 | the gathered rooms are exactly those within activation distance |
| EnemyManagement.DungeonEnemyManager.ListedIn | Assets/Game/Scripts/Enemy/DungeonEnemyManager.cs:187-230 | each room's list is part of the lists of all the rooms |
| EnemyManagement.DungeonEnemyManager.VisitRoom | Assets/Game/Scripts/Enemy/DungeonEnemyManager.cs:194-226 | a near inactive room is populated when it qualifies, or its enemies woken when it was populated; a far active room has its enemies put to sleep; no other list changes |
| EnemyManagement.DungeonEnemyManager.ProgressStep | Assets/Game/Scripts/Enemy/DungeonEnemyManager.cs:192-227 | one more pass keeps the loop's promises |
| EnemyManagement.DungeonEnemyManager.VisitedNone | Assets/Game/Scripts/Enemy/DungeonEnemyManager.cs:189-192 | the promises hold before the first pass |
| EnemyManagement.DungeonEnemyManager.VisitedAll | Assets/Game/Scripts/Enemy/DungeonEnemyManager.cs:187-230 | after the last pass the promises cover every room |
| EnemyManagement.DungeonEnemyManager.VisitNext | Assets/Game/Scripts/Enemy/DungeonEnemyManager.cs:192-227 | the pass over the next room keeps the promises |
| EnemyManagement.DungeonEnemyManager.UpdateActiveRooms | Assets/Game/Scripts/Enemy/DungeonEnemyManager.cs:187-230 | the active rooms become exactly the rooms within activation distance; every qualifying near room is populated; only these rooms become populated; the pool only gives enemies away |
| DungeonLayout.Align | Assets/Game/Scripts/Dungeon/DungeonGenerator.cs:188-198 | the aligned module keeps its tag and flags, and its entry connector lands on the target |
| DungeonLayout.MarkConnected | Assets/Game/Scripts/Dungeon/DungeonGenerator.cs:123 | exactly one connector becomes connected; nothing else about the module changes |
| DungeonLayout.SetConnectedAt | Assets/Game/Scripts/Dungeon/DungeonGenerator.cs:123 | only the referenced module changes |
| DungeonLayout.SetConnectedRaises | Assets/Game/Scripts/Dungeon/DungeonGenerator.cs:123 | a flag update raises exactly the referenced connector's flag |
| DungeonLayout.CloseStepAdvances | Assets/Game/Scripts/Dungeon/DungeonGenerator.cs:267-287 | one outer step of loop closure extends the closure by that index |
| DungeonLayout.PositionsStable | Assets/Game/Scripts/Dungeon/DungeonGenerator.cs:267-287 | rising flags move no connection point |
| DungeonLayout.MarkPairKeepsClosed | Assets/Game/Scripts/Dungeon/DungeonGenerator.cs:281-283 | marking a point and its partner extends the closure |
| DungeonLayout.SameFirstClose | Assets/Game/Scripts/Dungeon/DungeonGenerator.cs:271-285 | the partner scan sees the same positions whatever flags rose meanwhile |
| DungeonLayout.FreeRefsOf | Assets/Game/Scripts/Dungeon/DungeonGenerator.cs:256-265 | exactly the free connection points of one module |
| DungeonLayout.FreeRefs | Assets/Game/Scripts/Dungeon/DungeonGenerator.cs:256-265 | only free connection points of the listed modules |
| DungeonLayout.FreeRefsComplete | Assets/Game/Scripts/Dungeon/DungeonGenerator.cs:256-265 | every free connection point of the listed modules is collected |
| DungeonLayout.FreeRefsAppend | Assets/Game/Scripts/Dungeon/DungeonGenerator.cs:256-265 | collecting rooms then hallways is collecting each in turn |
| DungeonLayout.FirstClose | Assets/Game/Scripts/Dungeon/DungeonGenerator.cs:271-285 | the first later point nearer than 1 unit; none exactly when there is none |
| DungeonLayout.MarkedRefsStep | Assets/Game/Scripts/Dungeon/DungeonGenerator.cs:267-287 | each outer index adds exactly the points it pairs |
| DungeonLayout.MarkedRefsExactly | Assets/Game/Scripts/Dungeon/DungeonGenerator.cs:267-287 | loop closure marks exactly the outer points with a near later point and the first such point of each |
| DungeonLayout.PartnerPairsAgainAsOuterPoint | Assets/Game/Scripts/Dungeon/DungeonGenerator.cs:267-287 | a point already taken as a partner pairs again as an outer point: three points 0.6 apart are all marked although the outer two are 1.2 apart |
| DungeonLayout.CapsFor | Assets/Game/Scripts/Dungeon/DungeonGenerator.cs:300-319 | only wall caps on this module's connectors |
| DungeonLayout.CapsForCount | Assets/Game/Scripts/Dungeon/DungeonGenerator.cs:300-319 | each free connector of the module gets exactly one cap and a connected one none |
| DungeonLayout.CapsOfAllAppend | Assets/Game/Scripts/Dungeon/DungeonGenerator.cs:289-297 | capping rooms then hallways is capping each in turn |
| DungeonLayout.CapsOfAllCount | Assets/Game/Scripts/Dungeon/DungeonGenerator.cs:289-297 | over modules listed once each, every free connector gets one cap and every connected one none |
| DungeonLayout.ReachableFromStart | Assets/Game/Scripts/Dungeon/DungeonGenerator.cs:77-161 | every placed module is reachable from the start room through joined connectors |
| DungeonLayout.WithFreeConnectors | Assets/Game/Scripts/Dungeon/DungeonGenerator.cs:93 | exactly the rooms that still have a free connector |
| DungeonGeneration.TreeStable | Assets/Game/Scripts/Dungeon/DungeonGenerator.cs:254-298 | capping raises flags only, so the tree of attachments survives |
| DungeonGeneration.AttachKeepsTree | Assets/Game/Scripts/Dungeon/DungeonGenerator.cs:120-125 | attaching a module at a connector keeps the layout a tree with rooms and hallways alternating |
| DungeonGeneration.SeparatedSameBounds | Assets/Game/Scripts/Dungeon/DungeonGenerator.cs:254-298 | flag changes keep placed modules apart |
| DungeonGeneration.DungeonGenerator.constructor | Assets/Game/Scripts/Dungeon/DungeonGenerator.cs:9-22 | ten rooms by default, nothing placed |
| DungeonGeneration.DungeonGenerator.Start | Assets/Game/Scripts/Dungeon/DungeonGenerator.cs:27-40 | the room count comes from the dungeon data or falls back to 20; boss mode builds the boss layout; a kept layout is valid, is the first of the recorded attempts to reach 70%, and its recorded size is the rooms plus hallways left placed; a failed session leaves nothing placed after ten attempts that all fell short |
| DungeonGeneration.DungeonGenerator.TryGenerateDungeon | Assets/Game/Scripts/Dungeon/DungeonGenerator.cs:42-65 | boss mode builds the boss layout; otherwise the recorded attempt sizes show that the kept layout is the first whose rooms plus hallways reach 70% of `roomCount`, each earlier one having fallen short and been cleared, the kept size being the rooms plus hallways left placed, and that a failure means all `maxAttempts` attempts fell short |
| DungeonGeneration.DungeonGenerator.ClearDungeon | Assets/Game/Scripts/Dungeon/DungeonGenerator.cs:67-75 | every list is empty |
| DungeonGeneration.DungeonGenerator.GenerateBossDungeon | Assets/Game/Scripts/Dungeon/DungeonGenerator.cs:163-186 | after clearing, exactly one room tagged Boss and no hallway, that room being the start room; a null prefab or a missing `Room` leaves the layout empty; nothing is capped |
| DungeonGeneration.DungeonGenerator.IsObjectOverlapping | Assets/Game/Scripts/Dungeon/DungeonGenerator.cs:215-237 | true iff the box meets some placed room or hallway box expanded by 0.5; it changes nothing, and a non-overlapping module keeps the layout separated |
| DungeonGeneration.DungeonGenerator.SeparatedAfterAdding | Assets/Game/Scripts/Dungeon/DungeonGenerator.cs:215-237 | a module overlapping nothing placed keeps all modules apart |
| DungeonGeneration.DungeonGenerator.Accept | Assets/Game/Scripts/Dungeon/DungeonGenerator.cs:120-125 | exactly two connectors (source and entry) become connected and the module joins its list and the object record |
| DungeonGeneration.DungeonGenerator.AttachHallwayAt | Assets/Game/Scripts/Dungeon/DungeonGenerator.cs:100-125 | an overlapping hallway leaves every list and flag unchanged; a kept one is appended to the hallway list |
| DungeonGeneration.DungeonGenerator.PlaceRoomsAtExits | Assets/Game/Scripts/Dungeon/DungeonGenerator.cs:127-157 | the walk over the hallway's exits keeps the growth invariant and never passes `roomCount` rooms |
| DungeonGeneration.DungeonGenerator.AttachRoomAt | Assets/Game/Scripts/Dungeon/DungeonGenerator.cs:129-156 | a room with no free connector or that overlaps leaves every list and flag unchanged; a kept one is appended to the room list, tagged Boss iff it is room `roomCount - 1` |
| DungeonGeneration.DungeonGenerator.GenerateDungeon | Assets/Game/Scripts/Dungeon/DungeonGenerator.cs:77-161 | the finished layout is a separated tree whose start room is room 0 tagged Normal, holds at most `roomCount` rooms, and has every connector connected or capped exactly once; the growth loop makes at most `5 * roomCount` passes |
| DungeonGeneration.DungeonGenerator.CappedLayout | Assets/Game/Scripts/Dungeon/DungeonGenerator.cs:160 | capping keeps the grown layout's shape, separation and tags |
| DungeonGeneration.DungeonGenerator.GrowRooms | Assets/Game/Scripts/Dungeon/DungeonGenerator.cs:86-158 | the growth loop keeps the growth invariant (a separated, tagged tree of at most `roomCount` rooms, none capped) and makes at most `5 * roomCount` passes |
| DungeonGeneration.DungeonGenerator.GrowthAttempt | Assets/Game/Scripts/Dungeon/DungeonGenerator.cs:91-157 | one pass keeps the growth invariant; the room count never falls; the pass reports exhaustion exactly when no placed room has a free connector, and then places nothing; a hallway prefab without a free connector is discarded, leaving every list and connector flag unchanged |
| DungeonGeneration.DungeonGenerator.PlaceStartRoom | Assets/Game/Scripts/Dungeon/DungeonGenerator.cs:79-83 | a single room at the origin, tagged Normal, listed first |
| DungeonGeneration.DungeonGenerator.ListedOnce | Assets/Game/Scripts/Dungeon/DungeonGenerator.cs:256-265 | no module is listed twice among rooms and hallways |
| DungeonGeneration.DungeonGenerator.CollectUnusedPoints | Assets/Game/Scripts/Dungeon/DungeonGenerator.cs:256-265 | every free connection point, rooms first then hallways |
| DungeonGeneration.DungeonGenerator.CollectFrom | Assets/Game/Scripts/Dungeon/DungeonGenerator.cs:258-264 | the free connection points of the listed modules |
| DungeonGeneration.DungeonGenerator.FindPartner | Assets/Game/Scripts/Dungeon/DungeonGenerator.cs:271-285 | the first later point nearer than 1 unit |
| DungeonGeneration.DungeonGenerator.CloseLoops | Assets/Game/Scripts/Dungeon/DungeonGenerator.cs:267-287 | exactly the pairs `MarkedRefs` describes become connected |
| DungeonGeneration.DungeonGenerator.CapRoomConnections | Assets/Game/Scripts/Dungeon/DungeonGenerator.cs:300-319 | one cap per free connector of the module is recorded |
| DungeonGeneration.DungeonGenerator.CapUnusedConnections | Assets/Game/Scripts/Dungeon/DungeonGenerator.cs:254-298 | near pairs are connected, flags only rise, and afterwards every connector is connected or has exactly one cap |
| DungeonGeneration.DungeonGenerator.CapAllModules | Assets/Game/Scripts/Dungeon/DungeonGenerator.cs:289-297 | every connector still free gets exactly one cap |
| DungeonGeneration.DungeonGenerator.CapEach | Assets/Game/Scripts/Dungeon/DungeonGenerator.cs:289-297 | each listed module is capped in turn |
| DungeonGeneration.DungeonGenerator.CappedOnce | Assets/Game/Scripts/Dungeon/DungeonGenerator.cs:289-297 | capping every listed module once on a cap-free record reconciles every connector |

## Left out

- Rendering, UI, audio, animation and particle effects. This covers `TomeInventory`'s icons, the upgrade-selection and message panels, `SetupMenu`, `OpenMenu`, `CloseMenu`'s UI half, keyboard input, the kill-counter text and its `RoundToInt` display, and the health bars.
- Coroutines and time. The regeneration wait, the burn ticks, the enemy state routines, the dissolve and return-to-pool delay, and `BuildNavMeshAfterDelay` are not modelled. `DungeonProgressManager.FadeToWinMenu` is modelled up to its first `yield`, as the win event firing.
- Scene loading, `DontDestroyOnLoad`, teleporting and recalling the player, `OnNavMeshBaked` and NavMesh agents. `SetParent` and transform hierarchies are left out. Positions are plain points.
- `DungeonEnemyManager.InitializeEnemyPool`, `SpawnBossInBossRoom` and the `Awake`/`Update` wiring that calls the modelled operations are not modelled. The portal's `OnDungeonSelected` visibility call in `ChooseDungeon` is left out.
- `TomeController.GetAvailableTomeTypes` is left out. It only filters the enum for the UI, the same filter `TomeMenus.WithoutNone` models for the menu.
- `DungeonGeneration.DungeonGenerator.GenerateDungeon`: `AlignRoom` is modelled as a translation that brings the new module's entry connector onto the exit connector. The rotation is not modelled, because quaternions on reals add nothing to the overlap and capping properties.
- `GetObjectBounds` is each module's stored world box, already shrunk to 95%. Renderer encapsulation is not modelled.
- `Common.Expand` grows every face by half the amount, as Unity's `Bounds.Expand` grows the size by the amount.
- Distances are compared as squares, which is exact on reals and avoids square roots.
- Floats are unbounded reals, with no rounding. `Mathf.CeilToInt` of a quotient of two ints is integer ceiling division. Character classes in `FormatTomeName` are ASCII letters. `StartsWith` and `Replace` are ordinal comparisons.
- `EnemyStatistics.GetScaledVersion` takes a `nat` level. Negative levels, where the float power would shrink the stats, are not modelled.
- `Enemies.EnemyController.Initialize` requires a nonzero attack speed, because `1 / attackSpeed` on a C# float yields infinity there, which reals do not have.
- `Enemies.EnemyController.Die` sends the experience and the kill to the leveling and portal objects the enemy holds, when they are set. When a burning enemy is killed by another hit, the burn flag stays set after death, as in the code: `StopAllCoroutines` ends the burn routine before it clears the flag, and `Initialize` does not reset it. When the burn tick itself kills the enemy, that tick's step carries on, the loop sees the enemy dead and the flag is cleared; the burn routine is not modelled, so this second case is not captured.
- `EnemyManagement.DungeonEnemyManager.SpawnEnemyAtZone` counts `GetValidSpawnPosition` as one NavMesh draw, via the supplied `navMesh` function. The spawned controller's `Initialize` is not linked to the pooled object.
- `EnemyManagement.DungeonEnemyManager.PopulateRoom` models a missing `spawnZones` list as an empty one. Null enemies in the pool or the lists are not modelled.
- `EnemyManagement.DungeonEnemyManager.CalculateTotalEnemyCount`: `roomOrder` stands for the dictionary's enumeration order. The total is an estimate drawn from its own random values, separate from the count actually spawned, as in the code.
- `EnemyManagement.DungeonEnemyManager.UpdateActiveRooms` does not state each enemy's active flag afterwards, because the per-room lists may share objects. It states the active-room set, which rooms are populated, and the pool's consumption. The total-spawned bookkeeping is proved separately (`TrackedCountPopulate`, `TrackedCountReturn`).
- `DungeonSelection.DungeonSelector.ChooseDungeon` without a loader: the C# throws after the room-count draw. The model consumes the draw, changes nothing and reports that the call did not complete.
- `selectedIndices` is an `array<nat>`. Negative entries cannot arise from the selection code.
- `DungeonEnemyManager.IsStartRoom` compares with the generator's start room only, since `lastSpawnRoom` is missing from the generator.
- `Leveling.PlayerLeveling.ApplyUpgrade`: the attack-speed upgrade changes nothing, since `TomeController` lacks `ApplyGlobalAttackSpeed`.
- The shape of `DungeonData` (name, upgrade name, type and value, room count) is taken from its construction in `DungeonSelector.ChooseDungeon`. Its own declaration is not part of this model.
- `DungeonGeneration.DungeonGenerator.GenerateDungeon` requires non-empty room and hallway prefab lists, because the C# code throws on an empty list (`Random.Range(0, 0)` indexes an empty list at `Assets/Game/Scripts/Dungeon/DungeonGenerator.cs:79`). `Start` and `TryGenerateDungeon` require this only outside boss mode, which never reads those lists.
- `Leveling.ExperienceForLevel` requires a growth factor other than 1. With growth 1 the closed form divides 0 by 0, and the resulting NaN makes every level-up test fail, so the player never levels. Reals have no NaN, so that case is not modelled.
