# RPG-rewrite dungeon and location core, in Dafny

This project models the dungeon and location core of a text role-playing game written in Java,
and proves properties of that model:

- **Item registry** (`item.dfy`, module `Items`). Every item registers itself in one
  process-wide map keyed by its UUID as a side effect of construction. A duplicate UUID
  overwrites the earlier entry. The registry also answers "all items" and "items of a type".
- **Goblin construction** (`entity.dfy`, module `Entities`). A goblin gets an hp draw, one or
  two armour pieces made in a loop, and a "Goblin Sword" that it both carries and wields.
- **Dungeon floors** (`dungeon_floor.dfy`, module `DungeonFloors`). One random draw picks how
  many goblins a floor gets (3 to 7). The difficulty rating is a fold over the roster.
- **Dungeons** (`dungeon.dfy`, module `Dungeons`). A dungeon holds a list of floors, a current
  floor and a monotone "cleared" flag. Its operations are `addFloor`, `clearFloor` and
  `getFloorByNumber`.
- **Snapshot mappers** (`dungeon_mapper.dfy`, `town.dfy`, `town_mapper.dfy`). These turn
  dungeons and towns into save records (DTOs) and back.
- **Exploring state** (`exploring_state.dfy`, module `Exploring`). This is the world-map menu:
  exit, go to a known town or dungeon, or search for a new place.

Randomness is passed in as parameters:
- the enemy-count draw `enemyChance`;
- the per-goblin `GoblinDraws`;
- the fresh floor UUIDs;
- the places `generateLocation` yields, as a function `generate: nat -> Location`.

Console input is a sequence of lines. Java `float` arithmetic is modelled with `real`, and
`Math.round(x)` as `floor(x + 0.5)`.

Imperative code is modelled as classes whose methods update fields. Each such method is proved
against a specification function:
- `CalculateDifficulty` against `Difficulty`;
- `GenerateEnemies` against `GeneratedRoster`;
- `DungeonToDto` against `FloorDtos`/`SumRatings`;
- `HandleInput` against `ReadChoice`;
- `Update` against `Explore`.

Lemmas state the properties of those functions.

Where the code and its own comments disagree, the model follows the code:
- **Difficulty rounding.** `calculateDifficulty` divides the rounded value by 100, not 10
  (com/joshuacgunn/core/location/DungeonFloor.java:194). So the result is one tenth of the
  difficulty rounded to one decimal place, although the comment on line 193 says the value is
  rounded to one decimal place.
  `DifficultyIsTenthOfOneDecimal` and `ThreeGoblinExample` (4.75 gives 0.48) state this.
- **Duplicate item ids.** Item.java:17 documents the id as unique. The registry does not
  reject a duplicate: `HashMap.put` overwrites the earlier entry, so the last item registered
  under an id is the one kept (`PutSemantics`, `PutSize`, `PutAllKeys`, `PutAllLastWins`).
- **The current floor is not saved.** The dungeon snapshot has a current-floor id, but
  `dungeonToDungeonDto` never writes it. So a saved-then-restored dungeon has no current floor
  (`SaveAndRestore`). The cleared flag is not saved either, and the restore builds the dungeon
  uncleared, so a cleared dungeon comes back uncleared.
- **The shop name is not restored.** `townToTownDto` writes each shop's name into the snapshot
  (TownMapper.java:32), but the restore never reads it: `new Shop(type, uuid, owner)`
  (TownMapper.java:47) names the shop itself. So a shop keeps its name only when the Shop
  constructor gives it the same name again. `SaveAndRestoreTown` therefore assumes that every
  saved name is `nameOf(type, uuid)`.

Java exceptions are modelled as explicit results:
- `ClearFloor` returns `false` and changes nothing when `clearFloor` would throw.
- `TownToDto` and `TownDtoToTown` return `None` when the source would throw: an owner-less shop
  (NullPointerException), or an owner id that names a non-NPC (ClassCastException).
- `Update` reports an `Outcome` of `IndexOutOfRange`, `InputMismatch` or `InputExhausted` for
  IndexOutOfBoundsException, InputMismatchException and NoSuchElementException.

## Model

| member | source | states |
|---|---|---|
| Items.ItemRegistry.constructor | Core/src/main/java/com/github/joshuacgunn/core/item/Item.java:21 | the registry starts empty |
| Items.ItemRegistry.NewItem | Core/src/main/java/com/github/joshuacgunn/core/item/Item.java:29-33 | the new item has the given name, UUID and kind; the registry afterwards is the old one with the item put under its UUID |
| Items.PutSemantics | Core/src/main/java/com/github/joshuacgunn/core/item/Item.java:32 | after put, the item's UUID maps to it; every other key is present exactly when it was before, with the same item; the key set gains the UUID |
| Items.PutSize | Core/src/main/java/com/github/joshuacgunn/core/item/Item.java:32 | a duplicate UUID overwrites and leaves the size unchanged; a new UUID grows the registry by one |
| Items.PutAllAppend | Core/src/main/java/com/github/joshuacgunn/core/item/Item.java:32 | registering a + b is registering a, then b |
| Items.PutAllKeys | Core/src/main/java/com/github/joshuacgunn/core/item/Item.java:32 | after registering a sequence, every UUID in it is present; a UUID not in it keeps its old entry or stays absent |
| Items.PutAllLastWins | Core/src/main/java/com/github/joshuacgunn/core/item/Item.java:32 | after registering a sequence, a UUID is mapped to the last item registered under it: a duplicate overwrites |
| Items.ItemRegistry.GetItems | Core/src/main/java/com/github/joshuacgunn/core/item/Item.java:58-60 | returns one value per key, each key exactly once, so the length is the registry size |
| Items.InstancesExact | Core/src/main/java/com/github/joshuacgunn/core/item/Item.java:69-71 | the type filter keeps exactly the items that are instances of the class; the result is a sub-multiset of its input and no longer |
| Items.InstancesOfAnyItem | Core/src/main/java/com/github/joshuacgunn/core/item/Item.java:69-71 | filtering by Item itself returns every item, in order |
| Items.FilterInstances | Core/src/main/java/com/github/joshuacgunn/core/item/Item.java:70 | the one-pass filter loop computes `Instances` |
| Items.ItemRegistry.GetItemsByType | Core/src/main/java/com/github/joshuacgunn/core/item/Item.java:69-71 | returns the instances of the class among the registry's values, in getItems order: an item is in the result exactly when it is registered and is an instance, and the result is a sub-multiset of all values |
| Entities.GoblinArmors | Core/src/main/java/com/github/joshuacgunn/core/entity/Goblin.java:25-27 | one armour piece per armour draw, in order, each at level 1 with the drawn quality |
| Entities.GoblinShape | Core/src/main/java/com/github/joshuacgunn/core/entity/Goblin.java:21-32 | a goblin is named "Goblin", has hp in [25, 35), carries 1 or 2 level-1 armour pieces of quality 0 or 1 plus exactly one weapon, the "Goblin Sword" (10, 5), which is its current weapon and is in its inventory |
| Entities.NewGoblin | Core/src/main/java/com/github/joshuacgunn/core/entity/Goblin.java:21-32 | the constructor loop builds `Goblin(d)` and registers each item it creates, in creation order |
| DungeonFloors.EnemyCount | Core/src/main/java/com/joshuacgunn/core/location/DungeonFloor.java:78-98 | the roster size is 3 plus the band bonus, always in [3, 7]; it is 3 exactly when the draw is at least 0.99, and 7 exactly when the draw is in [0.8, 0.99) |
| DungeonFloors.Goblins | Core/src/main/java/com/joshuacgunn/core/location/DungeonFloor.java:80-97 | one goblin per draw, in order |
| DungeonFloors.DungeonFloor.AddGoblin | Core/src/main/java/com/joshuacgunn/core/location/DungeonFloor.java:81 | appends one goblin and registers its items |
| DungeonFloors.DungeonFloor.AddRun | Core/src/main/java/com/joshuacgunn/core/location/DungeonFloor.java:80-97 | a run of `new Goblin` calls extends the roster by the goblins of the next draws and the registry by their items |
| DungeonFloors.DungeonFloor.GenerateEnemies | Core/src/main/java/com/joshuacgunn/core/location/DungeonFloor.java:78-98 | appends exactly `EnemyCount(enemyChance)` goblins built from the draws, in order, and registers their items in order |
| DungeonFloors.GeneratedRosterShape | Core/src/main/java/com/joshuacgunn/core/location/DungeonFloor.java:78-98 | a generated roster has `EnemyCount` enemies, all goblins, so it has one enemy type and no variety bonus |
| DungeonFloors.SingleKind | Core/src/main/java/com/joshuacgunn/core/location/DungeonFloor.java:170-188 | a non-empty roster of one type has exactly one kind in the type set |
| DungeonFloors.SumsNonNegative | Core/src/main/java/com/joshuacgunn/core/location/DungeonFloor.java:172-177 | the hp, damage and defence totals are non-negative when every enemy's stats are |
| DungeonFloors.DifficultyZeroIffEmpty | Core/src/main/java/com/joshuacgunn/core/location/DungeonFloor.java:155-191 | on a floor numbered 1 or more with non-negative stats, the rating is 0 exactly when the roster is empty |
| DungeonFloors.DifficultyIsTenthOfOneDecimal | Core/src/main/java/com/joshuacgunn/core/location/DungeonFloor.java:194 | ten times the returned rating is within 0.05 of the raw difficulty: the code returns one tenth of the one-decimal rounding |
| DungeonFloors.ThreeGoblinExample | Core/src/main/java/com/joshuacgunn/core/location/DungeonFloor.java:155-195 | three goblins on floor 2 with totals hp 90, damage 30 and defence 20 give raw value 4.75 and rating 0.48 |
| DungeonFloors.DungeonFloor.CalculateDifficulty | Core/src/main/java/com/joshuacgunn/core/location/DungeonFloor.java:155-195 | the read-only accumulation loop returns `Difficulty(floorNumber, roster)`: 0 for an empty roster, otherwise round(10 × (0.2 × floor + (ΣHp/100 + ΣDamage/25 + ΣDefence/25) × (0.75 + 0.25 n) + 0.15 (types − 1))) / 100 |
| DungeonFloors.DungeonFloor.constructor | Core/src/main/java/com/joshuacgunn/core/location/DungeonFloor.java:52-62 | keeps the UUID and number; the roster is empty when generation is skipped, otherwise it is the generated roster, with the goblins' items registered; the rating is the roster's difficulty (0 when skipped); the floor has a common chest |
| DungeonFloors.DungeonFloor.SetEnemiesOnFloor | Core/src/main/java/com/joshuacgunn/core/location/DungeonFloor.java:106-108 | replaces the roster wholesale and leaves the rating alone |
| DungeonFloors.DungeonFloor.SetDifficultyRating | Core/src/main/java/com/joshuacgunn/core/location/DungeonFloor.java:142-144 | sets the rating and leaves the roster alone |
| DungeonFloors.DungeonFloor.SetHasChest | Core/src/main/java/com/joshuacgunn/core/location/DungeonFloor.java:220-222 | sets the chest flag, leaves the chest |
| Dungeons.NewFloor | Core/src/main/java/com/github/joshuacgunn/core/location/Dungeon.java:42 | a fresh floor with the given number and UUID, its generated roster and that roster's rating; the goblins' items are registered |
| Dungeons.Dungeon.constructor | Core/src/main/java/com/github/joshuacgunn/core/location/Dungeon.java:28-31 | a new dungeon has exactly one floor, numbered 1, generated from the draws, which is the current floor, and satisfies `Valid`; the registry gains exactly the items of that floor's goblins, in order |
| Dungeons.Dungeon.Restored | Core/src/main/java/com/github/joshuacgunn/core/mapper/DungeonMapper.java:52 | the restoring constructor makes a dungeon with no floors and no current floor |
| Dungeons.Dungeon.AddFloor | Core/src/main/java/com/github/joshuacgunn/core/location/Dungeon.java:40-48 | appends one fresh floor numbered size + 1 and returns it, earlier floors unchanged; sets the current floor only when there was none; preserves `Valid` (floor i numbered i + 1, current floor among the floors) |
| Dungeons.Dungeon.ClearFloor | Core/src/main/java/com/github/joshuacgunn/core/location/Dungeon.java:50-55 | succeeds exactly when there is a current floor numbered k with 0 ≤ k − 2 < size; then the current floor becomes floors[k − 2], one floor down under `Valid`, and the cleared flag is set when the new number is ≤ 1 and never reset; on failure nothing changes |
| Dungeons.Dungeon.SetCurrentFloor | Core/src/main/java/com/github/joshuacgunn/core/location/Dungeon.java:80-82 | sets the current floor; `Valid` is kept when the floor is null or one of the dungeon's |
| Dungeons.Dungeon.SetDifficultyRating | Core/src/main/java/com/github/joshuacgunn/core/mapper/DungeonMapper.java:75 | sets the dungeon's rating |
| Dungeons.IndexOfNumber | Core/src/main/java/com/github/joshuacgunn/core/location/Dungeon.java:90-97 | the index of the first floor with the number, or −1 exactly when no floor has it |
| Dungeons.Dungeon.FloorByNumber | Core/src/main/java/com/github/joshuacgunn/core/location/Dungeon.java:90-97 | null exactly when no floor has the number; otherwise the first floor in list order with that number |
| Dungeons.IndexOfNumbered | Core/src/main/java/com/github/joshuacgunn/core/location/Dungeon.java:90-97 | on floors numbered 1, 2, …, the search for n finds index n − 1 when 1 ≤ n ≤ size, and nothing otherwise |
| Dungeons.Dungeon.FloorByNumberValid | Core/src/main/java/com/github/joshuacgunn/core/location/Dungeon.java:90-97 | in a valid dungeon, floor n is floors[n − 1] for 1 ≤ n ≤ size, and null otherwise |
| DungeonMapping.EnemyToDto | Core/src/main/java/com/github/joshuacgunn/core/mapper/DungeonMapper.java:38 | an enemy maps to an enemy snapshot with its UUID and inventory |
| DungeonMapping.DtoToEntity | Core/src/main/java/com/github/joshuacgunn/core/mapper/DungeonMapper.java:59-60 | a snapshot comes back as an enemy exactly when it is an enemy snapshot |
| DungeonMapping.EnemyRoundTrip | Core/src/main/java/com/github/joshuacgunn/core/mapper/DungeonMapper.java:36-63 | an enemy mapped to a snapshot and back is the same enemy |
| DungeonMapping.EnemyDtosShape | Core/src/main/java/com/github/joshuacgunn/core/mapper/DungeonMapper.java:36-41 | a floor's enemy list maps one-for-one, in order |
| DungeonMapping.EnemiesToDtos | Core/src/main/java/com/github/joshuacgunn/core/mapper/DungeonMapper.java:36-41 | the inner save loop computes `EnemyDtos`, and restoring its result gives back the roster |
| DungeonMapping.RestoredRosterMembers | Core/src/main/java/com/github/joshuacgunn/core/mapper/DungeonMapper.java:57-63 | an enemy is restored exactly when some snapshot entry maps back to it; everything else is dropped |
| DungeonMapping.RestoreRoster | Core/src/main/java/com/github/joshuacgunn/core/mapper/DungeonMapper.java:57-63 | the inner restore loop keeps exactly the entities that come back as enemies, in order, and is no longer than the snapshot list |
| DungeonMapping.RosterRoundTrip | Core/src/main/java/com/github/joshuacgunn/core/mapper/DungeonMapper.java:36-63 | saving then restoring a roster gives back the same enemies in the same order |
| DungeonMapping.FloorToDto | Core/src/main/java/com/github/joshuacgunn/core/mapper/DungeonMapper.java:29-41 | a floor snapshot copies the number, UUID and difficulty rating, holds the enemy snapshots of the roster in order, and leaves the parent-dungeon id unset |
| DungeonMapping.FloorDtos | Core/src/main/java/com/github/joshuacgunn/core/mapper/DungeonMapper.java:26-45 | one floor snapshot per floor |
| DungeonMapping.FloorDtosPointwise | Core/src/main/java/com/github/joshuacgunn/core/mapper/DungeonMapper.java:26-45 | the i-th floor snapshot is the snapshot of the i-th floor, so order is kept |
| DungeonMapping.DungeonToDto | Core/src/main/java/com/github/joshuacgunn/core/mapper/DungeonMapper.java:20-48 | null maps to none; otherwise the snapshot has the dungeon's name and UUID, one floor snapshot per floor in order, the sum of the floors' ratings, and no current-floor id |
| DungeonMapping.LastIndexOfUuid | Core/src/main/java/com/github/joshuacgunn/core/mapper/DungeonMapper.java:71-73 | the last snapshot index whose UUID equals the recorded current-floor id, or −1 exactly when none matches |
| DungeonMapping.LastIndexOfUuidSnoc | Core/src/main/java/com/github/joshuacgunn/core/mapper/DungeonMapper.java:71-73 | restoring one more floor moves the current floor to it exactly when its UUID matches, and keeps the earlier choice otherwise |
| DungeonMapping.RestoreFloor | Core/src/main/java/com/github/joshuacgunn/core/mapper/DungeonMapper.java:55-67 | a fresh floor with the snapshot's number and UUID, the restored roster, and the rating recomputed from that roster, not the saved one |
| DungeonMapping.AddRestoredFloor | Core/src/main/java/com/github/joshuacgunn/core/mapper/DungeonMapper.java:54-74 | appends one restored floor and makes it current exactly when its UUID is the recorded current-floor id |
| DungeonMapping.DungeonDtoToDungeon | Core/src/main/java/com/github/joshuacgunn/core/mapper/DungeonMapper.java:51-77 | a fresh dungeon with one restored floor per snapshot, in order; the current floor is the last one whose UUID matches (none if none does); not cleared; the rating is copied from the snapshot |
| DungeonMapping.SavedFloorsRestored | Core/src/main/java/com/github/joshuacgunn/core/mapper/DungeonMapper.java:26-67 | floors restored from the snapshots of a floor list keep each floor's number, UUID and enemies |
| DungeonMapping.RestoredRatingsCurrent | Core/src/main/java/com/github/joshuacgunn/core/mapper/DungeonMapper.java:66 | every restored floor's rating agrees with its restored roster |
| DungeonMapping.SameFloorsKeep | Core/src/main/java/com/github/joshuacgunn/core/mapper/DungeonMapper.java:20-77 | floors that match one for one keep the originals' ratings when those were current, and consecutive numbering when the originals had it |
| DungeonMapping.SaveAndRestore | Core/src/main/java/com/github/joshuacgunn/core/mapper/DungeonMapper.java:20-77 | save then restore gives back every floor's number, UUID and roster, and its rating when the ratings were current; the dungeon rating is the sum of the floor ratings; `Valid` is kept; the current floor and the cleared flag are lost (no current floor, not cleared) |
| Towns.Town.Restored | Core/src/main/java/com/github/joshuacgunn/core/mapper/TownMapper.java:43 | the restoring constructor takes name, UUID and shop count and starts with no shops |
| Towns.Town.SetShopsInTown | Core/src/main/java/com/github/joshuacgunn/core/mapper/TownMapper.java:50 | replaces the shop list wholesale |
| TownMapping.ShopToDto | Core/src/main/java/com/github/joshuacgunn/core/mapper/TownMapper.java:29-33 | a shop snapshot has the owner's UUID and the shop's UUID, name and type |
| TownMapping.ShopDtos | Core/src/main/java/com/github/joshuacgunn/core/mapper/TownMapper.java:27-37 | one snapshot per shop |
| TownMapping.ShopDtosAt | Core/src/main/java/com/github/joshuacgunn/core/mapper/TownMapper.java:27-37 | the i-th snapshot is the snapshot of the i-th shop, so order is kept |
| TownMapping.TownToDto | Core/src/main/java/com/github/joshuacgunn/core/mapper/TownMapper.java:20-39 | fails exactly when some shop has no owner; otherwise copies shop count, UUID and name, with one shop snapshot per shop, in order |
| TownMapping.LookupOwner | Core/src/main/java/com/github/joshuacgunn/core/mapper/TownMapper.java:47 | the entity-map lookup is missing exactly when the id is absent, not castable exactly when the entry is not an NPC, and otherwise the NPC stored there |
| TownMapping.RestoredShop | Core/src/main/java/com/github/joshuacgunn/core/mapper/TownMapper.java:47 | a restored shop keeps the snapshot's type and UUID; it has no owner exactly when the owner id is missing from the entity map, else that map's NPC |
| TownMapping.RestoredShops | Core/src/main/java/com/github/joshuacgunn/core/mapper/TownMapper.java:45-49 | one restored shop per snapshot |
| TownMapping.RestoredShopsAt | Core/src/main/java/com/github/joshuacgunn/core/mapper/TownMapper.java:45-49 | the i-th restored shop comes from the i-th snapshot, so order is kept |
| TownMapping.TownDtoToTown | Core/src/main/java/com/github/joshuacgunn/core/mapper/TownMapper.java:42-52 | fails exactly when some owner id names a non-NPC; otherwise a fresh town with the snapshot's name, UUID and shop count whose shop list is the restored shops |
| TownMapping.MissingOwnerTolerated | Core/src/main/java/com/github/joshuacgunn/core/mapper/TownMapper.java:47 | an unknown owner id does not abort: the shop is restored with no owner |
| TownMapping.ShopsRoundTrip | Core/src/main/java/com/github/joshuacgunn/core/mapper/TownMapper.java:20-52 | with owners registered and constructor-given names, saving then restoring shops gives back the same shops in order |
| TownMapping.SaveAndRestoreTown | Core/src/main/java/com/github/joshuacgunn/core/mapper/TownMapper.java:20-52 | when every shop has an owner, every owner is registered in the entity map as that same NPC, and every shop's name is `nameOf(type, uuid)`, save then restore gives back the town's name, UUID, shop count and shops |
| Exploring.ParseChoice | Core/src/main/java/com/github/joshuacgunn/core/gameplay/ExploringState.java:167-183 | exactly the lines "0" to "3" are actions, and each gives its own digit |
| Exploring.ParseInt | Core/src/main/java/com/github/joshuacgunn/core/gameplay/ExploringState.java:74 | an index read succeeds exactly when the text after an optional '-' or '+' is a non-empty run of decimal digits whose value, negated after '-', lies in Java's int range, and then yields that value |
| Exploring.DecimalTextValue | Core/src/main/java/com/github/joshuacgunn/core/gameplay/ExploringState.java:74 | the decimal text of n has digit value n |
| Exploring.ParseIntOfSigned | Core/src/main/java/com/github/joshuacgunn/core/gameplay/ExploringState.java:74 | every int in Java's range, typed with a '-' when negative, reads back as itself |
| Exploring.ParseIntOfDecimal | Core/src/main/java/com/github/joshuacgunn/core/gameplay/ExploringState.java:74 | typing an index in int range reads back that index |
| Exploring.ReadChoice | Core/src/main/java/com/github/joshuacgunn/core/gameplay/ExploringState.java:163-185 | the choice is the first line that names an action, every earlier line is invalid, and the rest of the lines follows it; there is no choice exactly when no line is valid |
| Exploring.ExploringState.HandleInput | Core/src/main/java/com/github/joshuacgunn/core/gameplay/ExploringState.java:163-185 | the re-prompt loop stores `ReadChoice`'s action and returns the rest; when input runs out the action is unchanged |
| Exploring.PickPlace | Core/src/main/java/com/github/joshuacgunn/core/gameplay/ExploringState.java:74-84 | the index prompt goes back on 0, moves only to a listed place, and otherwise ends in a bad index or a read failure |
| Exploring.Explore | Core/src/main/java/com/github/joshuacgunn/core/gameplay/ExploringState.java:43-161 | an update leaves no more input than it was given and never lowers the count of places found; it reports NotExploring exactly when not exploring |
| Exploring.ExploreLeavesSuffix | Core/src/main/java/com/github/joshuacgunn/core/gameplay/ExploringState.java:43-185 | an update consumes a prefix of the console lines: the lines it leaves are a suffix of its input |
| Exploring.ActLeavesSuffix | Core/src/main/java/com/github/joshuacgunn/core/gameplay/ExploringState.java:51-160 | once an action is chosen, the lines left are a suffix of those after the choice |
| Exploring.ActEndsTurnSuffix | Core/src/main/java/com/github/joshuacgunn/core/gameplay/ExploringState.java:51-160 | an action that ends the turn without re-entering update (exit, a listed choice, no dungeons, a place accepted, input exhausted) leaves a suffix of the lines |
| Exploring.Act | Core/src/main/java/com/github/joshuacgunn/core/gameplay/ExploringState.java:51-160 | once an action is chosen, the input left is no longer, the count of places found never drops, and the turn is always played |
| Exploring.ExploreMovesOnlyToOffered | Core/src/main/java/com/github/joshuacgunn/core/gameplay/ExploringState.java:43-161 | an update moves the player only to a listed town, a listed dungeon, or a place found during that update |
| Exploring.ActMovesOnlyToOffered | Core/src/main/java/com/github/joshuacgunn/core/gameplay/ExploringState.java:51-160 | the same, once the action is chosen |
| Exploring.InvalidLineSkipped | Core/src/main/java/com/github/joshuacgunn/core/gameplay/ExploringState.java:180-183 | an invalid menu line is consumed and does not change the turn |
| Exploring.ExitChoice | Core/src/main/java/com/github/joshuacgunn/core/gameplay/ExploringState.java:52-54 | a "0" line ends the turn as Exited with action 0, consuming only that line |
| Exploring.TownChoice | Core/src/main/java/com/github/joshuacgunn/core/gameplay/ExploringState.java:74-84 | with towns listed, index 0 stays exploring, index k in 1..n moves to towns[k − 1], and a larger index is out of range |
| Exploring.NoDungeonsStays | Core/src/main/java/com/github/joshuacgunn/core/gameplay/ExploringState.java:88-91 | with no dungeons, action 2 keeps exploring and moves nowhere |
| Exploring.DungeonChoice | Core/src/main/java/com/github/joshuacgunn/core/gameplay/ExploringState.java:106-117 | dungeon index k in 1..n moves to dungeons[k − 1] |
| Exploring.NewPlaceChoice | Core/src/main/java/com/github/joshuacgunn/core/gameplay/ExploringState.java:141-158 | for a new place, "y" or "Y" moves there; any other answer plays update again with the next place |
| Exploring.ExploringState.constructor | Core/src/main/java/com/github/joshuacgunn/core/gameplay/ExploringState.java:18-31 | a new state is exploring with action 0 for the given player |
| Exploring.ExploringState.Step | Core/src/main/java/com/github/joshuacgunn/core/gameplay/ExploringState.java:51-160 | one pass through the switch either ends the turn as `Act` says, or re-enters update on the remaining lines with the same eventual result |
| Exploring.ExploringState.PickListed | Core/src/main/java/com/github/joshuacgunn/core/gameplay/ExploringState.java:74-84 | the index prompt follows `PickPlace`; a move sets the location and the previous state, and exploring stops on a move or a bad index |
| Exploring.ExploringState.Update | Core/src/main/java/com/github/joshuacgunn/core/gameplay/ExploringState.java:43-161 | does nothing when not exploring; otherwise plays the turn `Explore` describes; isExploring is cleared exactly on exit, a move or a bad index; a move sets the player's location and records this state as the previous one; otherwise the player is unchanged |

## Left out

- Console I/O is not modelled: the printing, `TimeUnit.sleep` and the progress dots of
  ExploringState.java:120-137, and the `Random` that times the search. Input is a given
  sequence of lines.
- Exploring.ParseInt: models `Scanner.nextInt` on a whole line holding one optional sign and
  decimal digits. Leading or trailing blanks, group separators, locale digits, several
  tokens on one line and blank lines skipped before a number are not modelled.
- `java.util.Random` and `UUID.randomUUID()` are not modelled. Their results are parameters,
  and draw ranges are preconditions on those parameters (`ValidDraws`).
- `Location.generateLocation` is not modelled. The places it returns are the parameter
  `generate`.
- Exploring.ExploringState.Update: the lists of known towns and dungeons are parameters that
  stay fixed during one update. A place found during the update is not added to them, because
  the location registry (`Location.getLocationsByType`) is not part of this model.
- `handleGameState`, `GameEvents.leaveGame` and `GameEvents.switchGameStates` are not part of
  this model. Neither are the TownState and DungeonState constructors. The model stops at the
  state change `update` makes before handing over.
- The Enemy superclass, `generateArmor`, Armor qualities and the Inventory class are not part
  of this model. An enemy's defence and each armour piece's name and UUID come from the draws.
- Entities.NewGoblin: each `generateArmor` call (Goblin.java:26) is taken to create exactly one
  Armor item, register it, and append it to the inventory, before the sword is added. The
  goblin's inventory size in `GoblinShape` and the registry contents in `NewGoblin`,
  `GenerateEnemies` and `AddFloor` depend on this.
- DungeonFloor.java:5 imports `com.joshuacgunn.core.entity.Goblin`, while the Goblin class
  modelled here is `com.github.joshuacgunn.core.entity.Goblin` (Goblin.java). The model treats
  them as one class.
- Chest contents and the Chest constructor are not part of this model. A floor records only
  that it has a common chest.
- DungeonFloors.DungeonFloor.constructor: `new Chest(COMMON, false, this)` (DungeonFloor.java:61)
  is taken to register no item. The registry contents in the floor constructor, `NewFloor` and
  `AddFloor`, and a restored floor touching no registry in `RestoreFloor`, depend on this.
- The floor's `parentDungeon` back-reference is not modelled. Neither are the snapshot's
  parent-dungeon id (always unset by the mapper) and the trivial getters.
- EntityMapper is not part of this model. It is modelled as a field-by-field copy for
  enemies, and NPC and player snapshots come back as those entities.
- Registration in `Entity.entityMap` is not modelled. The map is a parameter of the town
  restore.
- The Shop constructor and the 4-argument Town constructor are not part of this model. The
  name a restored shop gets is the parameter `nameOf`. The restoring town constructor is taken
  to add no shops.
- The 3-argument Dungeon constructor used by the restore is not part of this model. It is
  taken to add no floor and set no current floor. The 3-argument DungeonFloor constructor
  called by `addFloor` is taken as the 4-argument one with enemy generation on.
- Null references are not modelled: null UUIDs, null snapshot fields, `townToTownDto(null)`
  and `dungeonDtoToDungeon(null)`. Apart from that, the `null` dungeon of `dungeonToDungeonDto`
  and the owner-less shop are modelled. The `NullPointerException` catch in
  `getFloorByNumber` is not modelled, because no floor is null in the model.
- Java `float` rounding is not modelled. Difficulty, hp and ratings are exact reals. The
  32-bit `int` floor counter is unbounded.
- Items.ItemRegistry.GetItems: HashMap iteration order is unspecified in the source. The
  contract therefore states the result only up to the order of the keys (a ghost
  enumeration).
- Object identity of items and enemies is not modelled. They are values, because nothing in
  the core changes them after construction.
