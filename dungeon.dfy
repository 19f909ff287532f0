/**
 * Dungeon: an ordered list of floors, a reference to the floor the player is on, and a
 * cleared flag that is set once the player climbs back to the first floor.
 */
module Dungeons {
  import opened Common
  import opened Items
  import opened Entities
  import opened DungeonFloors

  /** The index of the first floor numbered `n`, or -1 when there is none. */
  function IndexOfNumber(fs: seq<DungeonFloor>, n: int): (k: int)
    ensures -1 <= k < |fs|
    ensures k == -1 <==> forall i :: 0 <= i < |fs| ==> fs[i].floorNumber != n
    ensures 0 <= k ==> fs[k].floorNumber == n && forall i :: 0 <= i < k ==> fs[i].floorNumber != n
  {
    if fs == [] then -1
    else if fs[0].floorNumber == n then 0
    else
      var k := IndexOfNumber(fs[1..], n);
      if k == -1 then -1 else k + 1
  }

  /** Floors numbered 1, 2, ... in list order: then floor n is at index n - 1. */
  ghost predicate Numbered(fs: seq<DungeonFloor>) {
    forall i :: 0 <= i < |fs| ==> fs[i].floorNumber == i + 1
  }

  /** On consecutively numbered floors, the search for floor n finds index n - 1, or nothing. */
  lemma IndexOfNumbered(fs: seq<DungeonFloor>, n: int)
    requires Numbered(fs)
    ensures IndexOfNumber(fs, n) == if 1 <= n <= |fs| then n - 1 else -1
  {
    if 1 <= n <= |fs| {
      assert fs[n - 1].floorNumber == n;
    }
  }

  /** `f` is the floor numbered `n` that the DungeonFloor constructor generates from these draws. */
  ghost predicate Generated(f: DungeonFloor, n: int, floorUuid: Uuid, enemyChance: real, draws: seq<GoblinDraws>)
    reads f
  {
    && EnoughDraws(draws)
    && f.floorNumber == n && f.floorUuid == floorUuid
    && f.enemiesOnFloor == GeneratedRoster(enemyChance, draws)
    && f.difficultyRating == Difficulty(n, f.enemiesOnFloor)
  }

  /** `new DungeonFloor(uuid, n, false)`: a floor with generated enemies and a computed rating. */
  method NewFloor(reg: ItemRegistry, n: int, floorUuid: Uuid, enemyChance: real, draws: seq<GoblinDraws>)
    returns (f: DungeonFloor)
    requires EnoughDraws(draws)
    modifies reg
    ensures fresh(f) && Generated(f, n, floorUuid, enemyChance, draws)
    ensures reg.itemMap == PutAll(old(reg.itemMap), GoblinsItems(draws[..EnemyCount(enemyChance)]))
  {
    f := new DungeonFloor(floorUuid, n, false, reg, enemyChance, draws);
  }

  class Dungeon {
    const locationName: string
    const locationUuid: Uuid
    var floors: seq<DungeonFloor>
    var currentFloor: DungeonFloor?
    var isCleared: bool
    var difficultyRating: real

    /**
     * The invariant construction and addFloor keep: floor i has number i + 1, and the
     * current floor, once set, is one of the dungeon's floors.
     */
    ghost predicate Valid()
      reads this
    {
      && Numbered(floors)
      && (currentFloor != null ==> currentFloor in floors)
    }

    /**
     * Dungeon(name, uuid): a dungeon with its first floor, generated from the given draws;
     * that floor is numbered 1 and is the current floor.
     */
    constructor (name: string, uuid: Uuid, reg: ItemRegistry,
                 floorUuid: Uuid, enemyChance: real, draws: seq<GoblinDraws>)
      requires EnoughDraws(draws)
      modifies reg
      ensures Valid()
      ensures locationName == name && locationUuid == uuid
      ensures |floors| == 1 && fresh(floors[0])
      ensures Generated(floors[0], 1, floorUuid, enemyChance, draws)
      ensures currentFloor == floors[0]
      ensures !isCleared
      ensures reg.itemMap == PutAll(old(reg.itemMap), GoblinsItems(draws[..EnemyCount(enemyChance)]))
    {
      locationName, locationUuid := name, uuid;
      floors, currentFloor, isCleared, difficultyRating := [], null, false, 0.0;
      new;
      var first := AddFloor(reg, floorUuid, enemyChance, draws);
    }

    /**
     * The constructor the snapshot layer uses (Dungeon(name, uuid, false)): no floor is
     * generated and there is no current floor; the caller adds the floors.
     */
    constructor Restored(name: string, uuid: Uuid)
      ensures Valid()
      ensures locationName == name && locationUuid == uuid
      ensures floors == [] && currentFloor == null && !isCleared && difficultyRating == 0.0
    {
      locationName, locationUuid := name, uuid;
      floors, currentFloor, isCleared, difficultyRating := [], null, false, 0.0;
    }

    /**
     * addFloor: appends a newly generated floor numbered one more than the floor count and
     * returns it; the new floor becomes the current floor only when there is none yet.
     */
    method AddFloor(reg: ItemRegistry, floorUuid: Uuid, enemyChance: real, draws: seq<GoblinDraws>)
      returns (newFloor: DungeonFloor)
      requires EnoughDraws(draws)
      modifies this`floors, this`currentFloor, reg
      ensures fresh(newFloor)
      ensures floors == old(floors) + [newFloor]
      ensures Generated(newFloor, |old(floors)| + 1, floorUuid, enemyChance, draws)
      ensures reg.itemMap == PutAll(old(reg.itemMap), GoblinsItems(draws[..EnemyCount(enemyChance)]))
      ensures currentFloor == if old(currentFloor) == null then newFloor else old(currentFloor)
      ensures old(Valid()) ==> Valid()
    {
      newFloor := NewFloor(reg, |floors| + 1, floorUuid, enemyChance, draws);
      floors := floors + [newFloor];
      if currentFloor == null {
        currentFloor := newFloor;
      }
    }

    /**
     * clearFloor: moves the current floor to floors[k - 2], where k is the current floor's
     * number, and marks the dungeon cleared when the new current floor is numbered 1 or less.
     * Returns false, changing nothing, where the source throws: no current floor
     * (NullPointerException) or k - 2 outside the list (IndexOutOfBoundsException).
     */
    method ClearFloor() returns (ok: bool)
      modifies this`currentFloor, this`isCleared
      ensures ok <==> old(currentFloor) != null && 0 <= old(currentFloor).floorNumber - 2 < |floors|
      ensures ok ==> currentFloor == floors[old(currentFloor).floorNumber - 2]
      ensures ok ==> isCleared == (old(isCleared) || currentFloor.floorNumber <= 1)
      ensures !ok ==> currentFloor == old(currentFloor) && isCleared == old(isCleared)
      ensures old(isCleared) ==> isCleared
      ensures old(Valid()) ==> Valid()
      ensures old(Valid()) && ok ==>
                currentFloor.floorNumber == old(currentFloor).floorNumber - 1
                && (isCleared <==> old(isCleared) || old(currentFloor).floorNumber == 2)
    {
      if currentFloor == null || !(0 <= currentFloor.floorNumber - 2 < |floors|) {
        return false;
      }
      currentFloor := floors[currentFloor.floorNumber - 2];
      if currentFloor != null && currentFloor.floorNumber <= 1 {
        isCleared := true;
      }
      ok := true;
    }

    /** setCurrentFloor */
    method SetCurrentFloor(f: DungeonFloor?)
      modifies this`currentFloor
      ensures currentFloor == f
      ensures old(Valid()) && (f == null || f in floors) ==> Valid()
    {
      currentFloor := f;
    }

    /** setDifficultyRating of the dungeon (a Location field). */
    method SetDifficultyRating(rating: real)
      modifies this`difficultyRating
      ensures difficultyRating == rating
    {
      difficultyRating := rating;
    }

    /**
     * getFloorByNumber: the first floor numbered `n`, or null when no floor has that number.
     */
    function FloorByNumber(n: int): (r: DungeonFloor?)
      reads this
      ensures r == null <==> forall f :: f in floors ==> f.floorNumber != n
      ensures r != null ==> exists i :: 0 <= i < |floors| && floors[i] == r && r.floorNumber == n
                                        && forall j :: 0 <= j < i ==> floors[j].floorNumber != n
    {
      var k := IndexOfNumber(floors, n);
      if k == -1 then null else floors[k]
    }

    /** In a valid dungeon, floor n is floors[n - 1] for 1 <= n <= |floors|, and missing otherwise. */
    lemma FloorByNumberValid(n: int)
      requires Valid()
      ensures FloorByNumber(n) == if 1 <= n <= |floors| then floors[n - 1] else null
    {
      IndexOfNumbered(floors, n);
    }
  }
}
