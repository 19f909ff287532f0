/**
 * Entities as the core sees them: enemies (Goblin is the one variant shown),
 * shop-owning NPCs and the player, plus Goblin's constructor.
 */
module Entities {
  import opened Common
  import opened Items

  /** A Weapon is an item of the weapon kind. */
  type Weapon = it: Item | it.kind.WeaponItem? witness Item("", 0, WeaponItem(0.0, 0.0))

  /**
   * An enemy: `kind` is its class's simple name (the key of the variety bonus),
   * `inventory` its items in insertion order, `currentWeapon` the equipped weapon.
   */
  datatype Enemy = Enemy(
    kind: string, name: string, uuid: Uuid, hp: real, defense: real,
    inventory: seq<Item>, currentWeapon: Weapon)

  datatype Npc = Npc(name: string, uuid: Uuid)

  /** A live entity as Entity.entityMap holds it. */
  datatype Entity = EnemyEntity(enemy: Enemy) | NpcEntity(npc: Npc) | PlayerEntity(uuid: Uuid)

  /** getCurrentWeapon().getWeaponDamage() */
  function WeaponDamage(e: Enemy): real {
    e.currentWeapon.kind.damage
  }

  /** The random draws of one generateArmor call: its quality index and the new piece's id and name. */
  datatype ArmorDraw = ArmorDraw(qualityIndex: int, uuid: Uuid, name: string)

  /**
   * The random draws one Goblin constructor consumes: its hp draw, one armour draw per piece
   * (the number of pieces is itself a draw), the sword's fresh id, and the defence the
   * Enemy superclass derives (not part of this model).
   */
  datatype GoblinDraws = GoblinDraws(
    uuid: Uuid, hpDraw: real, armor: seq<ArmorDraw>, weaponUuid: Uuid, defense: real)

  /** What java.util.Random guarantees: nextFloat(25, 35), nextInt(1, 3) pieces, nextInt(0, 2) quality. */
  predicate ValidDraws(d: GoblinDraws) {
    && 25.0 <= d.hpDraw < 35.0
    && 1 <= |d.armor| <= 2
    && forall a <- d.armor :: 0 <= a.qualityIndex <= 1
  }

  const GoblinName: string := "Goblin"
  const GoblinSwordName: string := "Goblin Sword"
  const GoblinSwordDamage: real := 10.0
  const GoblinSwordDurability: real := 5.0
  /** generateArmor's first argument: rand.nextInt(1, 2) can only be 1. */
  const GoblinArmorLevel: int := 1

  /** The armour piece generateArmor(1, quality) makes from one draw. */
  function GoblinArmor(a: ArmorDraw): Item
    requires 0 <= a.qualityIndex
  {
    Item(a.name, a.uuid, ArmorItem(GoblinArmorLevel, a.qualityIndex))
  }

  function GoblinSword(d: GoblinDraws): Weapon {
    Item(GoblinSwordName, d.weaponUuid, WeaponItem(GoblinSwordDamage, GoblinSwordDurability))
  }

  /** The armour pieces of a goblin, in generation order. */
  function GoblinArmors(armor: seq<ArmorDraw>): (r: seq<Item>)
    requires forall a <- armor :: 0 <= a.qualityIndex
    ensures |r| == |armor| && forall i :: 0 <= i < |armor| ==> r[i] == GoblinArmor(armor[i])
  {
    if armor == [] then [] else GoblinArmors(armor[..|armor| - 1]) + [GoblinArmor(armor[|armor| - 1])]
  }

  /** The items a goblin built from `d` creates and registers: its armour, then its sword. */
  function GoblinItems(d: GoblinDraws): seq<Item>
    requires ValidDraws(d)
  {
    GoblinArmors(d.armor) + [GoblinSword(d)]
  }

  /** The goblin the constructor builds from `d`. */
  function Goblin(d: GoblinDraws): Enemy
    requires ValidDraws(d)
  {
    Enemy(GoblinName, GoblinName, d.uuid, (10.0 * d.hpDraw) / 10.0, d.defense, GoblinItems(d), GoblinSword(d))
  }

  /**
   * A goblin is named "Goblin", has hp in [25, 35), carries one or two armour pieces of
   * level 1 and quality 0 or 1, and exactly one weapon, the Goblin Sword, which is both
   * in its inventory and its current weapon.
   */
  lemma GoblinShape(d: GoblinDraws)
    requires ValidDraws(d)
    ensures var g := Goblin(d);
      && g.name == "Goblin" && g.kind == "Goblin" && g.uuid == d.uuid
      && 25.0 <= g.hp < 35.0
      && 2 <= |g.inventory| <= 3
      && (forall i :: 0 <= i < |g.inventory| - 1 ==>
            g.inventory[i].kind.ArmorItem? && g.inventory[i].kind.level == 1 && g.inventory[i].kind.qualityIndex <= 1)
      && g.currentWeapon == Item("Goblin Sword", d.weaponUuid, WeaponItem(10.0, 5.0))
      && g.currentWeapon in g.inventory
      && (forall i :: 0 <= i < |g.inventory| && g.inventory[i].kind.WeaponItem? ==> i == |g.inventory| - 1)
  {
  }

  /**
   * Goblin's constructor: draws hp, generates one or two armour pieces in a loop, then
   * creates the Goblin Sword, adds it to the inventory and equips it. Every item it creates
   * is registered in the item registry by Item's constructor.
   */
  method NewGoblin(reg: ItemRegistry, d: GoblinDraws) returns (g: Enemy)
    requires ValidDraws(d)
    modifies reg
    ensures g == Goblin(d)
    ensures reg.itemMap == PutAll(old(reg.itemMap), g.inventory)
  {
    var hp := (10.0 * d.hpDraw) / 10.0;
    var inventory: seq<Item> := [];
    var armorPieces := |d.armor|;
    for i := 0 to armorPieces
      invariant inventory == GoblinArmors(d.armor[..i])
      invariant reg.itemMap == PutAll(old(reg.itemMap), inventory)
    {
      var a := d.armor[i];
      var piece := reg.NewItem(a.name, a.uuid, ArmorItem(GoblinArmorLevel, a.qualityIndex));
      ArmorStep(d.armor, i);
      PutAllSnoc(old(reg.itemMap), inventory, piece);
      inventory := inventory + [piece];
    }
    assert d.armor[..armorPieces] == d.armor;
    var weapon := reg.NewItem(GoblinSwordName, d.weaponUuid, WeaponItem(GoblinSwordDamage, GoblinSwordDurability));
    PutAllSnoc(old(reg.itemMap), inventory, weapon);
    inventory := inventory + [weapon];
    g := Enemy(GoblinName, GoblinName, d.uuid, hp, d.defense, inventory, weapon);
  }

  lemma ArmorStep(armor: seq<ArmorDraw>, i: nat)
    requires i < |armor| && forall a <- armor :: 0 <= a.qualityIndex
    ensures GoblinArmors(armor[..i + 1]) == GoblinArmors(armor[..i]) + [GoblinArmor(armor[i])]
  {
    assert armor[..i + 1][..i] == armor[..i];
  }
}
