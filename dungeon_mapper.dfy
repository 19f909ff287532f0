/**
 * DungeonMapper: converts a dungeon to its snapshot (DTO) form for saving and back.
 * Entities on a floor go through the entity mapper, modelled here as a field-by-field copy.
 */
module DungeonMapping {
  import opened Common
  import opened Items
  import opened Entities
  import opened DungeonFloors
  import opened Dungeons

  /** The snapshot of one entity; an enemy keeps every field of the live object. */
  datatype EntityDto =
    | EnemyDto(kind: string, name: string, uuid: Uuid, hp: real, defense: real,
               inventory: seq<Item>, currentWeapon: Weapon)
    | NpcDto(npc: Npc)
    | PlayerDto(playerUuid: Uuid)

  /** Snapshot of a floor; the mapper never fills in the parent dungeon's id. */
  datatype FloorDto = FloorDto(
    floorNumber: int, floorUuid: Uuid, parentDungeonUuid: Option<Uuid>,
    difficultyRating: real, enemiesOnFloor: seq<EntityDto>)

  /** Snapshot of a dungeon; `currentFloorUuid` is None when no current floor was recorded. */
  datatype DungeonDto = DungeonDto(
    locationName: string, locationUuid: Uuid, floors: seq<FloorDto>,
    difficultyRating: real, currentFloorUuid: Option<Uuid>)

  /** entityToEntityDTO on an enemy. */
  function EnemyToDto(e: Enemy): (dto: EntityDto)
    ensures dto.EnemyDto? && dto.uuid == e.uuid && dto.inventory == e.inventory
  {
    EnemyDto(e.kind, e.name, e.uuid, e.hp, e.defense, e.inventory, e.currentWeapon)
  }

  /** entityDtoToEntity: an enemy snapshot gives back an enemy, the other kinds do not. */
  function DtoToEntity(dto: EntityDto): (e: Entity)
    ensures e.EnemyEntity? <==> dto.EnemyDto?
  {
    match dto
    case EnemyDto(kind, name, uuid, hp, defense, inventory, weapon) =>
      EnemyEntity(Enemy(kind, name, uuid, hp, defense, inventory, weapon))
    case NpcDto(npc) => NpcEntity(npc)
    case PlayerDto(uuid) => PlayerEntity(uuid)
  }

  /** The entity mapper loses nothing of an enemy. */
  lemma EnemyRoundTrip(e: Enemy)
    ensures DtoToEntity(EnemyToDto(e)) == EnemyEntity(e)
  {
  }

  /** The enemy list of a floor snapshot. */
  function EnemyDtos(r: seq<Enemy>): seq<EntityDto> {
    if r == [] then [] else EnemyDtos(r[..|r| - 1]) + [EnemyToDto(r[|r| - 1])]
  }

  /** The roster rebuilt from a floor snapshot: every entity that comes back as an enemy, in order. */
  function RestoredRoster(dtos: seq<EntityDto>): seq<Enemy> {
    if dtos == [] then []
    else
      var e := DtoToEntity(dtos[|dtos| - 1]);
      RestoredRoster(dtos[..|dtos| - 1]) + if e.EnemyEntity? then [e.enemy] else []
  }

  lemma {:induction false} EnemyDtosShape(r: seq<Enemy>)
    ensures |EnemyDtos(r)| == |r|
    ensures forall i :: 0 <= i < |r| ==> EnemyDtos(r)[i] == EnemyToDto(r[i])
  {
    if r != [] {
      EnemyDtosShape(r[..|r| - 1]);
    }
  }

  /** An enemy is restored exactly when some snapshot entry is an enemy snapshot of it. */
  lemma {:induction false} RestoredRosterMembers(dtos: seq<EntityDto>, e: Enemy)
    ensures e in RestoredRoster(dtos) <==> exists i :: 0 <= i < |dtos| && DtoToEntity(dtos[i]) == EnemyEntity(e)
  {
    if dtos != [] {
      var pre := dtos[..|dtos| - 1];
      RestoredRosterMembers(pre, e);
      if e in RestoredRoster(pre) {
        var i :| 0 <= i < |pre| && DtoToEntity(pre[i]) == EnemyEntity(e);
        assert dtos[i] == pre[i];
      }
      if exists i :: 0 <= i < |dtos| && DtoToEntity(dtos[i]) == EnemyEntity(e) {
        var i :| 0 <= i < |dtos| && DtoToEntity(dtos[i]) == EnemyEntity(e);
        if i < |pre| {
          assert pre[i] == dtos[i];
        }
      }
    }
  }

  /** Saving then restoring a floor's roster gives back the same enemies in the same order. */
  lemma {:induction false} RosterRoundTrip(r: seq<Enemy>)
    ensures RestoredRoster(EnemyDtos(r)) == r
  {
    if r != [] {
      var pre := r[..|r| - 1];
      RosterRoundTrip(pre);
      var dtos := EnemyDtos(r);
      assert dtos[..|dtos| - 1] == EnemyDtos(pre);
      EnemyRoundTrip(r[|r| - 1]);
    }
  }

  /** The snapshot of one floor. */
  function FloorToDto(f: DungeonFloor): (dto: FloorDto)
    reads f
    ensures dto.floorNumber == f.floorNumber && dto.floorUuid == f.floorUuid
    ensures dto.parentDungeonUuid == None
    ensures dto.difficultyRating == f.difficultyRating
    ensures dto.enemiesOnFloor == EnemyDtos(f.enemiesOnFloor)
  {
    FloorDto(f.floorNumber, f.floorUuid, None, f.difficultyRating, EnemyDtos(f.enemiesOnFloor))
  }

  /** The floor snapshots of a dungeon, in floor-list order. */
  function FloorDtos(fs: seq<DungeonFloor>): (r: seq<FloorDto>)
    reads fs
    ensures |r| == |fs|
  {
    if fs == [] then [] else FloorDtos(fs[..|fs| - 1]) + [FloorToDto(fs[|fs| - 1])]
  }

  /** The snapshot list holds each floor's snapshot at that floor's index, so order is kept. */
  lemma {:induction false} FloorDtosPointwise(fs: seq<DungeonFloor>)
    ensures forall i :: 0 <= i < |fs| ==> FloorDtos(fs)[i] == FloorToDto(fs[i])
  {
    if fs != [] {
      FloorDtosPointwise(fs[..|fs| - 1]);
    }
  }

  /** The dungeon rating the mapper stores: the sum of the floors' cached ratings. */
  function SumRatings(fs: seq<DungeonFloor>): real
    reads fs
  {
    if fs == [] then 0.0 else SumRatings(fs[..|fs| - 1]) + fs[|fs| - 1].difficultyRating
  }

  /** The index of the last floor snapshot whose id equals `u`, or -1 when none does. */
  function LastIndexOfUuid(fds: seq<FloorDto>, u: Option<Uuid>): (k: int)
    ensures -1 <= k < |fds|
    ensures k == -1 <==> forall i :: 0 <= i < |fds| ==> u != Some(fds[i].floorUuid)
    ensures 0 <= k ==> u == Some(fds[k].floorUuid)
                       && forall i :: k < i < |fds| ==> u != Some(fds[i].floorUuid)
  {
    if fds == [] then -1
    else if u == Some(fds[|fds| - 1].floorUuid) then |fds| - 1
    else LastIndexOfUuid(fds[..|fds| - 1], u)
  }

  /** The inner loop of dungeonToDungeonDto: one snapshot per enemy. */
  method EnemiesToDtos(r: seq<Enemy>) returns (dtos: seq<EntityDto>)
    ensures dtos == EnemyDtos(r)
    ensures RestoredRoster(dtos) == r
  {
    dtos := [];
    for j := 0 to |r|
      invariant dtos == EnemyDtos(r[..j])
    {
      assert r[..j + 1][..j] == r[..j];
      dtos := dtos + [EnemyToDto(r[j])];
    }
    assert r[..|r|] == r;
    RosterRoundTrip(r);
  }

  /** The inner loop of dungeonDtoToDungeon: keep the entities that come back as enemies. */
  method RestoreRoster(dtos: seq<EntityDto>) returns (enemies: seq<Enemy>)
    ensures enemies == RestoredRoster(dtos)
    ensures |enemies| <= |dtos|
    ensures forall e :: e in enemies <==> exists i :: 0 <= i < |dtos| && DtoToEntity(dtos[i]) == EnemyEntity(e)
  {
    enemies := [];
    for j := 0 to |dtos|
      invariant enemies == RestoredRoster(dtos[..j])
      invariant |enemies| <= j
    {
      assert dtos[..j + 1][..j] == dtos[..j];
      var e := DtoToEntity(dtos[j]);
      if e.EnemyEntity? {
        enemies := enemies + [e.enemy];
      }
    }
    assert dtos[..|dtos|] == dtos;
    forall e
      ensures e in enemies <==> exists i :: 0 <= i < |dtos| && DtoToEntity(dtos[i]) == EnemyEntity(e)
    {
      RestoredRosterMembers(dtos, e);
    }
  }

  /** The loop body of dungeonToDungeonDto: one floor's snapshot, its enemies saved one by one. */
  method SnapshotFloor(floor: DungeonFloor) returns (fd: FloorDto)
    ensures fd == FloorToDto(floor)
  {
    var enemyDtos := EnemiesToDtos(floor.enemiesOnFloor);
    fd := FloorDto(floor.floorNumber, floor.floorUuid, None, floor.difficultyRating, enemyDtos);
  }

  /** Extending a prefix of the floor list by one floor adds its snapshot and its rating. */
  lemma SnapshotStep(fs: seq<DungeonFloor>, i: nat)
    requires i < |fs|
    ensures FloorDtos(fs[..i + 1]) == FloorDtos(fs[..i]) + [FloorToDto(fs[i])]
    ensures SumRatings(fs[..i + 1]) == SumRatings(fs[..i]) + fs[i].difficultyRating
  {
    assert fs[..i + 1][..i] == fs[..i];
  }

  /**
   * dungeonToDungeonDto: None for a null dungeon; otherwise the name, id, one snapshot per
   * floor and the sum of the floors' ratings. The current floor's id is never recorded.
   */
  method DungeonToDto(d: Dungeon?) returns (dto: Option<DungeonDto>)
    ensures dto.None? <==> d == null
    ensures dto.Some? ==>
              && dto.value.locationName == d.locationName
              && dto.value.locationUuid == d.locationUuid
              && dto.value.floors == FloorDtos(d.floors)
              && dto.value.difficultyRating == SumRatings(d.floors)
              && dto.value.currentFloorUuid == None
  {
    if d == null {
      return None;
    }
    var floors := d.floors;
    var floorDtos: seq<FloorDto> := [];
    var difficulty: real := 0.0;
    for i := 0 to |floors|
      invariant floorDtos == FloorDtos(floors[..i])
      invariant difficulty == SumRatings(floors[..i])
    {
      SnapshotStep(floors, i);
      var floorDto := SnapshotFloor(floors[i]);
      floorDtos := floorDtos + [floorDto];
      difficulty := difficulty + floors[i].difficultyRating;
    }
    assert floors[..|floors|] == floors;
    dto := Some(DungeonDto(d.locationName, d.locationUuid, floorDtos, difficulty, None));
  }

  /** The live floor restored from snapshot `fd`: same number and id, roster rebuilt, rating recomputed. */
  ghost predicate RestoredFloor(f: DungeonFloor, fd: FloorDto)
    reads f
  {
    && f.floorNumber == fd.floorNumber
    && f.floorUuid == fd.floorUuid
    && f.enemiesOnFloor == RestoredRoster(fd.enemiesOnFloor)
    && f.difficultyRating == Difficulty(fd.floorNumber, f.enemiesOnFloor)
  }

  /** One iteration of dungeonDtoToDungeon's loop: a floor built with enemy generation skipped. */
  method RestoreFloor(fd: FloorDto) returns (f: DungeonFloor)
    ensures fresh(f) && RestoredFloor(f, fd)
  {
    f := new DungeonFloor(fd.floorUuid, fd.floorNumber, true, null, 0.0, []);
    var enemies := RestoreRoster(fd.enemiesOnFloor);
    f.SetEnemiesOnFloor(enemies);
    var rating := f.CalculateDifficulty();
    f.SetDifficultyRating(rating);
  }

  /** `fs` are the floors restored from `fds`, one for one. */
  ghost predicate RestoredFloors(fs: seq<DungeonFloor>, fds: seq<FloorDto>)
    reads fs
  {
    |fs| == |fds| && forall j :: 0 <= j < |fs| ==> RestoredFloor(fs[j], fds[j])
  }

  /** The floor the restore makes current: the last one whose snapshot id matches, or null. */
  ghost function RestoredCurrent(fs: seq<DungeonFloor>, fds: seq<FloorDto>, u: Option<Uuid>): DungeonFloor?
    requires |fs| == |fds|
  {
    var k := LastIndexOfUuid(fds, u);
    if k == -1 then null else fs[k]
  }

  /** Appending one snapshot moves the last match to it when its id matches, and keeps it otherwise. */
  lemma LastIndexOfUuidSnoc(fds: seq<FloorDto>, fd: FloorDto, u: Option<Uuid>)
    ensures LastIndexOfUuid(fds + [fd], u) == if u == Some(fd.floorUuid) then |fds| else LastIndexOfUuid(fds, u)
  {
    assert (fds + [fd])[..|fds|] == fds;
  }

  /** The loop body of dungeonDtoToDungeon: restore one floor, append it, maybe make it current. */
  method AddRestoredFloor(d: Dungeon, fd: FloorDto, currentFloorUuid: Option<Uuid>, ghost fds: seq<FloorDto>)
    requires RestoredFloors(d.floors, fds)
    requires d.currentFloor == RestoredCurrent(d.floors, fds, currentFloorUuid)
    modifies d`floors, d`currentFloor
    ensures |d.floors| == |old(d.floors)| + 1
    ensures d.floors == old(d.floors) + [d.floors[|old(d.floors)|]] && fresh(d.floors[|old(d.floors)|])
    ensures RestoredFloors(d.floors, fds + [fd])
    ensures d.currentFloor == RestoredCurrent(d.floors, fds + [fd], currentFloorUuid)
  {
    var floor := RestoreFloor(fd);
    d.floors := d.floors + [floor];
    if currentFloorUuid == Some(fd.floorUuid) {
      d.SetCurrentFloor(floor);
    }
    LastIndexOfUuidSnoc(fds, fd, currentFloorUuid);
  }

  /**
   * dungeonDtoToDungeon: a dungeon with one restored floor per snapshot, in order; the current
   * floor is the last restored floor whose id equals the recorded current-floor id (none when
   * nothing matches), and the dungeon rating is copied from the snapshot.
   */
  method DungeonDtoToDungeon(dto: DungeonDto) returns (d: Dungeon)
    ensures fresh(d)
    ensures d.locationName == dto.locationName && d.locationUuid == dto.locationUuid
    ensures forall f <- d.floors :: fresh(f)
    ensures RestoredFloors(d.floors, dto.floors)
    ensures d.currentFloor ==
              var k := LastIndexOfUuid(dto.floors, dto.currentFloorUuid);
              if k == -1 then null else d.floors[k]
    ensures !d.isCleared
    ensures d.difficultyRating == dto.difficultyRating
  {
    d := new Dungeon.Restored(dto.locationName, dto.locationUuid);
    for i := 0 to |dto.floors|
      invariant fresh(d)
      invariant d.locationName == dto.locationName && d.locationUuid == dto.locationUuid
      invariant forall f <- d.floors :: fresh(f)
      invariant RestoredFloors(d.floors, dto.floors[..i])
      invariant d.currentFloor == RestoredCurrent(d.floors, dto.floors[..i], dto.currentFloorUuid)
      invariant !d.isCleared
    {
      assert dto.floors[..i + 1] == dto.floors[..i] + [dto.floors[i]];
      AddRestoredFloor(d, dto.floors[i], dto.currentFloorUuid, dto.floors[..i]);
    }
    assert dto.floors[..|dto.floors|] == dto.floors;
    d.SetDifficultyRating(dto.difficultyRating);
  }

  /** Every floor's cached rating agrees with its roster, as construction and restoring leave it. */
  ghost predicate RatingsCurrent(fs: seq<DungeonFloor>)
    reads fs
  {
    forall i :: 0 <= i < |fs| ==> fs[i].difficultyRating == Difficulty(fs[i].floorNumber, fs[i].enemiesOnFloor)
  }

  /** Floors restored from the snapshots of `fs` keep each floor's number, id and enemies. */
  lemma SavedFloorsRestored(fs: seq<DungeonFloor>, fds: seq<FloorDto>, gs: seq<DungeonFloor>)
    requires |fds| == |fs| && forall i :: 0 <= i < |fs| ==> fds[i] == FloorToDto(fs[i])
    requires RestoredFloors(gs, fds)
    ensures |gs| == |fs|
    ensures forall i :: 0 <= i < |fs| ==> SameFloor(fs[i], gs[i])
  {
    forall i | 0 <= i < |fs|
      ensures SameFloor(fs[i], gs[i])
    {
      assert RestoredFloor(gs[i], fds[i]);
      RosterRoundTrip(fs[i].enemiesOnFloor);
    }
  }

  /** `g` has the number, id and enemies of `f`. */
  ghost predicate SameFloor(f: DungeonFloor, g: DungeonFloor)
    reads f, g
  {
    && g.floorNumber == f.floorNumber
    && g.floorUuid == f.floorUuid
    && g.enemiesOnFloor == f.enemiesOnFloor
  }

  /** Floors restored from snapshots carry ratings that agree with their restored rosters. */
  lemma RestoredRatingsCurrent(gs: seq<DungeonFloor>, fds: seq<FloorDto>)
    requires RestoredFloors(gs, fds)
    ensures RatingsCurrent(gs)
  {
    forall i | 0 <= i < |gs|
      ensures gs[i].difficultyRating == Difficulty(gs[i].floorNumber, gs[i].enemiesOnFloor)
    {
      assert RestoredFloor(gs[i], fds[i]);
    }
  }

  /**
   * Floors that match one for one keep the originals' ratings when those were current, and stay
   * consecutively numbered when the originals were.
   */
  lemma SameFloorsKeep(fs: seq<DungeonFloor>, gs: seq<DungeonFloor>)
    requires |gs| == |fs|
    requires forall i :: 0 <= i < |fs| ==> SameFloor(fs[i], gs[i])
    requires RatingsCurrent(gs)
    ensures RatingsCurrent(fs) ==>
              forall i :: 0 <= i < |fs| ==> gs[i].difficultyRating == fs[i].difficultyRating
    ensures Numbered(fs) ==> Numbered(gs)
  {
  }

  /**
   * Saving a dungeon and restoring the snapshot gives back every floor (number, id, enemies
   * and, when the ratings were current, the rating) and the dungeon's summed rating, but not
   * its current floor or its cleared flag: the snapshot records neither.
   */
  method SaveAndRestore(d: Dungeon) returns (d2: Dungeon)
    ensures fresh(d2)
    ensures d2.locationName == d.locationName && d2.locationUuid == d.locationUuid
    ensures |d2.floors| == |d.floors|
    ensures forall i :: 0 <= i < |d.floors| ==>
              && d2.floors[i].floorNumber == d.floors[i].floorNumber
              && d2.floors[i].floorUuid == d.floors[i].floorUuid
              && d2.floors[i].enemiesOnFloor == d.floors[i].enemiesOnFloor
    ensures RatingsCurrent(d2.floors)
    ensures RatingsCurrent(d.floors) ==>
              forall i :: 0 <= i < |d.floors| ==> d2.floors[i].difficultyRating == d.floors[i].difficultyRating
    ensures d2.difficultyRating == SumRatings(d.floors)
    ensures d2.currentFloor == null && !d2.isCleared
    ensures d.Valid() ==> d2.Valid()
  {
    var dto := DungeonToDto(d);
    d2 := DungeonDtoToDungeon(dto.value);
    FloorDtosPointwise(d.floors);
    SavedFloorsRestored(d.floors, dto.value.floors, d2.floors);
    RestoredRatingsCurrent(d2.floors, dto.value.floors);
    SameFloorsKeep(d.floors, d2.floors);
  }
}
