/**
 * DungeonFloor: one floor of a dungeon, its enemy roster, its chest and its cached
 * difficulty rating, with the band-threshold enemy generation and the difficulty formula.
 */
module DungeonFloors {
  import opened Common
  import opened Items
  import opened Entities

  // ---------------------------------------------------------------- generation

  /** The extra enemies one draw adds: <0.2 adds 1, <0.5 adds 2, <0.8 adds 3, <0.99 adds 4, otherwise 0. */
  function BandBonus(enemyChance: real): nat {
    if enemyChance < 0.2 then 1
    else if enemyChance < 0.5 then 2
    else if enemyChance < 0.8 then 3
    else if enemyChance < 0.99 then 4
    else 0
  }

  /** The number of enemies generateEnemies places: always 3, plus the band bonus. */
  function EnemyCount(enemyChance: real): (n: nat)
    ensures 3 <= n <= 7
    ensures n == 3 <==> 0.99 <= enemyChance
    ensures n == 7 <==> 0.8 <= enemyChance < 0.99
  {
    3 + BandBonus(enemyChance)
  }

  /** The most goblins one floor can need draws for. */
  const MaxEnemies: nat := 7

  /** Enough valid draws for any band. */
  predicate EnoughDraws(draws: seq<GoblinDraws>) {
    |draws| >= MaxEnemies && forall d <- draws :: ValidDraws(d)
  }

  /** The goblins built from `ds`, in order. */
  function Goblins(ds: seq<GoblinDraws>): (r: seq<Enemy>)
    requires forall d <- ds :: ValidDraws(d)
    ensures |r| == |ds| && forall i :: 0 <= i < |ds| ==> r[i] == Goblin(ds[i])
  {
    if ds == [] then [] else Goblins(ds[..|ds| - 1]) + [Goblin(ds[|ds| - 1])]
  }

  /** The items the goblins built from `ds` register, in creation order. */
  function GoblinsItems(ds: seq<GoblinDraws>): seq<Item>
    requires forall d <- ds :: ValidDraws(d)
  {
    if ds == [] then [] else GoblinsItems(ds[..|ds| - 1]) + GoblinItems(ds[|ds| - 1])
  }

  /** Extending a prefix of the draws by one adds one goblin and its items. */
  lemma PrefixStep(draws: seq<GoblinDraws>, k: nat)
    requires k < |draws| && forall d <- draws :: ValidDraws(d)
    ensures Goblins(draws[..k + 1]) == Goblins(draws[..k]) + [Goblin(draws[k])]
    ensures GoblinsItems(draws[..k + 1]) == GoblinsItems(draws[..k]) + GoblinItems(draws[k])
  {
    assert draws[..k + 1][..k] == draws[..k];
  }

  /** Adding the goblin of draw `k` after those of the first `k` draws. */
  lemma RosterStep(draws: seq<GoblinDraws>, k: nat, base: seq<Enemy>)
    requires k < |draws| && forall d <- draws :: ValidDraws(d)
    ensures base + Goblins(draws[..k]) + [Goblin(draws[k])] == base + Goblins(draws[..k + 1])
  {
    PrefixStep(draws, k);
  }

  /** Registering the items of goblin `k` after those of the first `k` goblins. */
  lemma RegistryStep(draws: seq<GoblinDraws>, k: nat, m0: map<Uuid, Item>, m1: map<Uuid, Item>, m2: map<Uuid, Item>)
    requires k < |draws| && forall d <- draws :: ValidDraws(d)
    requires m1 == PutAll(m0, GoblinsItems(draws[..k]))
    requires m2 == PutAll(m1, GoblinItems(draws[k]))
    ensures m2 == PutAll(m0, GoblinsItems(draws[..k + 1]))
  {
    PrefixStep(draws, k);
    PutAllAppend(m0, GoblinsItems(draws[..k]), GoblinItems(draws[k]));
  }

  /** The roster generateEnemies produces for a draw and a supply of goblin draws. */
  function GeneratedRoster(enemyChance: real, draws: seq<GoblinDraws>): seq<Enemy>
    requires EnoughDraws(draws)
  {
    Goblins(draws[..EnemyCount(enemyChance)])
  }

  // ---------------------------------------------------------------- difficulty

  function SumHp(r: seq<Enemy>): real {
    if r == [] then 0.0 else SumHp(r[..|r| - 1]) + r[|r| - 1].hp
  }

  function SumDamage(r: seq<Enemy>): real {
    if r == [] then 0.0 else SumDamage(r[..|r| - 1]) + WeaponDamage(r[|r| - 1])
  }

  function SumDefense(r: seq<Enemy>): real {
    if r == [] then 0.0 else SumDefense(r[..|r| - 1]) + r[|r| - 1].defense
  }

  /** The distinct enemy types (class simple names) of a roster. */
  function Kinds(r: seq<Enemy>): set<string> {
    set e | e in r :: e.kind
  }

  /** Extending a prefix of the roster by one enemy adds that enemy's stats and type. */
  lemma TallyStep(r: seq<Enemy>, i: nat)
    requires i < |r|
    ensures SumHp(r[..i + 1]) == SumHp(r[..i]) + r[i].hp
    ensures SumDamage(r[..i + 1]) == SumDamage(r[..i]) + WeaponDamage(r[i])
    ensures SumDefense(r[..i + 1]) == SumDefense(r[..i]) + r[i].defense
    ensures Kinds(r[..i + 1]) == Kinds(r[..i]) + {r[i].kind}
  {
    assert r[..i + 1][..i] == r[..i];
    assert r[..i + 1] == r[..i] + [r[i]];
  }

  /** The difficulty before rounding, for a non-empty roster. */
  function RawDifficulty(floorNumber: int, r: seq<Enemy>): real {
    floorNumber as real * 0.2
    + (SumHp(r) / 100.0 + SumDamage(r) / 25.0 + SumDefense(r) / 25.0) * (0.75 + |r| as real * 0.25)
    + (|Kinds(r)| - 1) as real * 0.15
  }

  /** Math.round: the nearest integer, halves rounded up. */
  function Round(x: real): int {
    (x + 0.5).Floor
  }

  /** calculateDifficulty's value: 0 for an empty roster, otherwise round(raw * 10) / 100. */
  function Difficulty(floorNumber: int, r: seq<Enemy>): real {
    if r == [] then 0.0 else Round(RawDifficulty(floorNumber, r) * 10.0) as real / 100.0
  }

  predicate NonNegativeStats(r: seq<Enemy>) {
    forall e <- r :: 0.0 <= e.hp && 0.0 <= WeaponDamage(e) && 0.0 <= e.defense
  }

  lemma {:induction false} SumsNonNegative(r: seq<Enemy>)
    requires NonNegativeStats(r)
    ensures 0.0 <= SumHp(r) && 0.0 <= SumDamage(r) && 0.0 <= SumDefense(r)
  {
    if r != [] {
      SumsNonNegative(r[..|r| - 1]);
    }
  }

  /**
   * The rating is 0 for an empty roster; on a floor numbered 1 or more whose enemies have
   * non-negative stats it is 0 only for an empty roster.
   */
  lemma DifficultyZeroIffEmpty(floorNumber: int, r: seq<Enemy>)
    requires 1 <= floorNumber && NonNegativeStats(r)
    ensures Difficulty(floorNumber, r) == 0.0 <==> r == []
  {
    if r != [] {
      SumsNonNegative(r);
      assert r[0].kind in Kinds(r);
      assert RawDifficulty(floorNumber, r) >= 0.2;
    }
  }

  /**
   * Ten times the rating is the raw difficulty rounded to one decimal place: the code returns
   * one tenth of the one-decimal value, because it divides by 100 rather than 10.
   */
  lemma DifficultyIsTenthOfOneDecimal(floorNumber: int, r: seq<Enemy>)
    requires r != []
    ensures var raw := RawDifficulty(floorNumber, r);
      raw - 0.05 < 10.0 * Difficulty(floorNumber, r) <= raw + 0.05
  {
    var raw := RawDifficulty(floorNumber, r);
    var n := Round(raw * 10.0);
    assert n as real <= raw * 10.0 + 0.5 < n as real + 1.0;
  }

  /** A non-empty roster of one enemy type has one kind, so its variety bonus is 0. */
  lemma {:induction false} SingleKind(r: seq<Enemy>, k: string)
    requires r != [] && forall e <- r :: e.kind == k
    ensures Kinds(r) == {k}
  {
    assert r[0].kind in Kinds(r);
  }

  /**
   * A generated floor holds only goblins: 3 to 7 of them, one enemy type, no variety bonus,
   * and the items they created registered in order.
   */
  lemma GeneratedRosterShape(enemyChance: real, draws: seq<GoblinDraws>)
    requires EnoughDraws(draws)
    ensures var r := GeneratedRoster(enemyChance, draws);
      && |r| == EnemyCount(enemyChance)
      && (forall e <- r :: e.kind == "Goblin")
      && Kinds(r) == {"Goblin"}
  {
    var r := GeneratedRoster(enemyChance, draws);
    SingleKind(r, "Goblin");
  }

  /**
   * The worked example of three goblins of one type on floor 2 with hp 90, damage 30 and
   * defence 20 in total: the raw value is 0.4 + (0.9 + 1.2 + 0.8) * 1.5 = 4.75, and the
   * code returns round(47.5) / 100 = 0.48.
   */
  lemma ThreeGoblinExample(r: seq<Enemy>)
    requires |r| == 3 && forall e <- r :: e.kind == "Goblin"
    requires SumHp(r) == 90.0 && SumDamage(r) == 30.0 && SumDefense(r) == 20.0
    ensures RawDifficulty(2, r) == 4.75
    ensures Difficulty(2, r) == 0.48
  {
    SingleKind(r, "Goblin");
    assert Round(47.5) == 48;
  }

  // ---------------------------------------------------------------- the floor

  datatype ChestRarity = Common

  /** The chest a floor is built with (its contents are not part of this model). */
  datatype Chest = Chest(rarity: ChestRarity)

  class DungeonFloor {
    const floorUuid: Uuid
    const floorNumber: int
    var difficultyRating: real
    var enemiesOnFloor: seq<Enemy>
    var hasChest: bool
    var chest: Chest

    /**
     * Builds floor `floorNumber`: generates its enemies unless told to skip, caches the
     * difficulty of the resulting roster and gives it a common chest. Generation registers
     * the goblins' items in `reg`; a skipped generation touches no registry.
     */
    constructor (floorUuid: Uuid, floorNumber: int, skipEnemyGeneration: bool,
                 reg: ItemRegistry?, enemyChance: real, draws: seq<GoblinDraws>)
      requires !skipEnemyGeneration ==> reg != null && EnoughDraws(draws)
      modifies if skipEnemyGeneration then {} else {reg}
      ensures this.floorUuid == floorUuid && this.floorNumber == floorNumber
      ensures skipEnemyGeneration ==> enemiesOnFloor == []
      ensures !skipEnemyGeneration ==>
                enemiesOnFloor == GeneratedRoster(enemyChance, draws)
                && reg.itemMap == PutAll(old(reg.itemMap), GoblinsItems(draws[..EnemyCount(enemyChance)]))
      ensures difficultyRating == Difficulty(floorNumber, enemiesOnFloor)
      ensures hasChest && chest == Chest(Common)
    {
      this.floorUuid := floorUuid;
      this.floorNumber := floorNumber;
      enemiesOnFloor := [];
      new;
      if !skipEnemyGeneration {
        GenerateEnemies(reg, enemyChance, draws);
        assert enemiesOnFloor == GeneratedRoster(enemyChance, draws);
      }
      difficultyRating := CalculateDifficulty();
      hasChest := true;
      chest := Chest(Common);
    }

    /** Appends one goblin built from `d` to the roster. */
    method AddGoblin(reg: ItemRegistry, d: GoblinDraws)
      requires ValidDraws(d)
      modifies this`enemiesOnFloor, reg
      ensures enemiesOnFloor == old(enemiesOnFloor) + [Goblin(d)]
      ensures reg.itemMap == PutAll(old(reg.itemMap), GoblinItems(d))
    {
      var g := NewGoblin(reg, d);
      enemiesOnFloor := enemiesOnFloor + [g];
    }

    /**
     * generateEnemies: one draw decides the band; three goblins are always added, then
     * the band's extra goblins, each built from the next goblin draw.
     */
    method GenerateEnemies(reg: ItemRegistry, enemyChance: real, draws: seq<GoblinDraws>)
      requires EnoughDraws(draws)
      modifies this`enemiesOnFloor, reg
      ensures enemiesOnFloor == old(enemiesOnFloor) + GeneratedRoster(enemyChance, draws)
      ensures reg.itemMap == PutAll(old(reg.itemMap), GoblinsItems(draws[..EnemyCount(enemyChance)]))
    {
      ghost var base, m0 := enemiesOnFloor, reg.itemMap;
      assert enemiesOnFloor == base + Goblins(draws[..0]);
      AddRun(reg, draws, 0, 3, base, m0);
      if enemyChance < 0.2 {
        AddRun(reg, draws, 3, 4, base, m0);
        assert EnemyCount(enemyChance) == 4;
      } else if enemyChance < 0.5 {
        AddRun(reg, draws, 3, 5, base, m0);
        assert EnemyCount(enemyChance) == 5;
      } else if enemyChance < 0.8 {
        AddRun(reg, draws, 3, 6, base, m0);
        assert EnemyCount(enemyChance) == 6;
      } else if enemyChance < 0.99 {
        AddRun(reg, draws, 3, 7, base, m0);
        assert EnemyCount(enemyChance) == 7;
      } else {
        assert EnemyCount(enemyChance) == 3;
      }
    }

    /**
     * Adds the goblins of draws `from` to `to` - 1, one `new Goblin` at a time, extending
     * the generated prefix of the roster.
     */
    method AddRun(reg: ItemRegistry, draws: seq<GoblinDraws>, from: nat, to: nat,
                  ghost base: seq<Enemy>, ghost m0: map<Uuid, Item>)
      requires EnoughDraws(draws) && from <= to <= |draws|
      requires enemiesOnFloor == base + Goblins(draws[..from])
      requires reg.itemMap == PutAll(m0, GoblinsItems(draws[..from]))
      modifies this`enemiesOnFloor, reg
      ensures enemiesOnFloor == base + Goblins(draws[..to])
      ensures reg.itemMap == PutAll(m0, GoblinsItems(draws[..to]))
    {
      for next := from to to
        invariant enemiesOnFloor == base + Goblins(draws[..next])
        invariant reg.itemMap == PutAll(m0, GoblinsItems(draws[..next]))
      {
        AddNext(reg, draws, next, base, m0);
      }
    }

    /** One iteration of AddRun: the goblin of draw `next` joins the generated prefix. */
    method AddNext(reg: ItemRegistry, draws: seq<GoblinDraws>, next: nat,
                   ghost base: seq<Enemy>, ghost m0: map<Uuid, Item>)
      requires EnoughDraws(draws) && next < |draws|
      requires enemiesOnFloor == base + Goblins(draws[..next])
      requires reg.itemMap == PutAll(m0, GoblinsItems(draws[..next]))
      modifies this`enemiesOnFloor, reg
      ensures enemiesOnFloor == base + Goblins(draws[..next + 1])
      ensures reg.itemMap == PutAll(m0, GoblinsItems(draws[..next + 1]))
    {
      ghost var m1 := reg.itemMap;
      AddGoblin(reg, draws[next]);
      RosterStep(draws, next, base);
      RegistryStep(draws, next, m0, m1, reg.itemMap);
    }

    /**
     * calculateDifficulty: a read-only pass over the roster accumulating hp, weapon damage,
     * defence and the set of enemy types, then the formula and the rounding.
     */
    method CalculateDifficulty() returns (rating: real)
      ensures rating == Difficulty(floorNumber, enemiesOnFloor)
    {
      if |enemiesOnFloor| == 0 {
        return 0.0;
      }
      var difficulty := floorNumber as real * 0.2;
      var totalHp, totalDamage, totalDefense := 0.0, 0.0, 0.0;
      var enemyTypes: set<string> := {};
      for i := 0 to |enemiesOnFloor|
        invariant totalHp == SumHp(enemiesOnFloor[..i])
        invariant totalDamage == SumDamage(enemiesOnFloor[..i])
        invariant totalDefense == SumDefense(enemiesOnFloor[..i])
        invariant enemyTypes == Kinds(enemiesOnFloor[..i])
      {
        var enemy := enemiesOnFloor[i];
        TallyStep(enemiesOnFloor, i);
        totalHp := totalHp + enemy.hp;
        totalDamage := totalDamage + enemy.currentWeapon.kind.damage;
        totalDefense := totalDefense + enemy.defense;
        enemyTypes := enemyTypes + {enemy.kind};
      }
      assert enemiesOnFloor[..|enemiesOnFloor|] == enemiesOnFloor;
      var hpFactor := totalHp / 100.0;
      var damageFactor := totalDamage / 25.0;
      var defenseFactor := totalDefense / 25.0;
      var enemyCountFactor := 0.75 + |enemiesOnFloor| as real * 0.25;
      var varietyBonus := (|enemyTypes| - 1) as real * 0.15;
      difficulty := difficulty + (hpFactor + damageFactor + defenseFactor) * enemyCountFactor + varietyBonus;
      assert difficulty == RawDifficulty(floorNumber, enemiesOnFloor);
      rating := Round(difficulty * 10.0) as real / 100.0;
    }

    /** setEnemiesOnFloor: replaces the roster wholesale; the cached rating is left as it was. */
    method SetEnemiesOnFloor(enemies: seq<Enemy>)
      modifies this`enemiesOnFloor
      ensures enemiesOnFloor == enemies
      ensures difficultyRating == old(difficultyRating)
    {
      enemiesOnFloor := enemies;
    }

    /** setDifficultyRating: the only way the cached rating changes after construction. */
    method SetDifficultyRating(rating: real)
      modifies this`difficultyRating
      ensures difficultyRating == rating
      ensures enemiesOnFloor == old(enemiesOnFloor)
    {
      difficultyRating := rating;
    }

    /** setHasChest */
    method SetHasChest(hasChest: bool)
      modifies this`hasChest
      ensures this.hasChest == hasChest && chest == old(chest)
    {
      this.hasChest := hasChest;
    }
  }
}
