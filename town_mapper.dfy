/**
 * TownMapper: converts a town to its snapshot (DTO) form and back. Shop owners are stored by
 * id and resolved again through the process-wide entity map when the town is restored.
 */
module TownMapping {
  import opened Common
  import opened Entities
  import opened Towns

  /** Snapshot of a shop. */
  datatype ShopDto = ShopDto(ownerUuid: Uuid, shopUuid: Uuid, shopName: string, shopType: string)

  /** Snapshot of a town. */
  datatype TownDto = TownDto(shopCount: int, townUuid: Uuid, townName: string, shopsInTown: seq<ShopDto>)

  /** Every shop has an owner; saving dereferences the owner, so a null one throws. */
  predicate AllOwned(shops: seq<Shop>) {
    forall s <- shops :: s.owner.Some?
  }

  function ShopToDto(s: Shop): (dto: ShopDto)
    requires s.owner.Some?
    ensures dto.ownerUuid == s.owner.value.uuid && dto.shopUuid == s.uuid
    ensures dto.shopName == s.name && dto.shopType == s.shopType
  {
    ShopDto(s.owner.value.uuid, s.uuid, s.name, s.shopType)
  }

  /** The shop snapshots of a town, one per shop, in order. */
  function ShopDtos(shops: seq<Shop>): (r: seq<ShopDto>)
    requires AllOwned(shops)
    ensures |r| == |shops|
  {
    if shops == [] then [] else ShopDtos(shops[..|shops| - 1]) + [ShopToDto(shops[|shops| - 1])]
  }

  lemma {:induction false} ShopDtosAt(shops: seq<Shop>, i: int)
    requires AllOwned(shops) && 0 <= i < |shops|
    ensures ShopDtos(shops)[i] == ShopToDto(shops[i])
  {
    if i < |shops| - 1 {
      ShopDtosAt(shops[..|shops| - 1], i);
    }
  }

  /**
   * townToTownDto: shop count, id and name, plus one snapshot per shop in order. None where
   * the source throws: some shop has no owner.
   */
  method TownToDto(t: Town) returns (dto: Option<TownDto>)
    ensures dto.None? <==> !AllOwned(t.shopsInTown)
    ensures dto.Some? ==>
              && dto.value.shopCount == t.shopCount
              && dto.value.townUuid == t.locationUuid
              && dto.value.townName == t.locationName
              && dto.value.shopsInTown == ShopDtos(t.shopsInTown)
  {
    var dtos: seq<ShopDto> := [];
    for i := 0 to |t.shopsInTown|
      invariant AllOwned(t.shopsInTown[..i])
      invariant dtos == ShopDtos(t.shopsInTown[..i])
    {
      var shop := t.shopsInTown[i];
      if shop.owner.None? {
        assert shop in t.shopsInTown;
        return None;
      }
      assert t.shopsInTown[..i + 1] == t.shopsInTown[..i] + [shop];
      dtos := dtos + [ShopToDto(shop)];
    }
    assert t.shopsInTown[..|t.shopsInTown|] == t.shopsInTown;
    dto := Some(TownDto(t.shopCount, t.locationUuid, t.locationName, dtos));
  }

  /** The outcome of `(NPC) Entity.entityMap.get(id)`. */
  datatype OwnerLookup = Found(npc: Npc) | Missing | NotAnNpc

  function LookupOwner(entityMap: map<Uuid, Entity>, id: Uuid): (r: OwnerLookup)
    ensures r.Missing? <==> id !in entityMap
    ensures r.Found? ==> id in entityMap && entityMap[id] == NpcEntity(r.npc)
    ensures r.NotAnNpc? <==> id in entityMap && !entityMap[id].NpcEntity?
  {
    if id !in entityMap then Missing
    else if entityMap[id].NpcEntity? then Found(entityMap[id].npc)
    else NotAnNpc
  }

  /** No owner id names an entity that is not an NPC (the cast would throw). */
  predicate OwnersCastable(dtos: seq<ShopDto>, entityMap: map<Uuid, Entity>) {
    forall d <- dtos :: !LookupOwner(entityMap, d.ownerUuid).NotAnNpc?
  }

  /**
   * The shop the Shop constructor builds from a snapshot: type and id from the snapshot, the
   * owner from the entity map (none when the id is missing), and the name the constructor
   * picks, which the snapshot's name does not influence.
   */
  function RestoredShop(d: ShopDto, entityMap: map<Uuid, Entity>, nameOf: (string, Uuid) -> string): (s: Shop)
    requires !LookupOwner(entityMap, d.ownerUuid).NotAnNpc?
    ensures s.shopType == d.shopType && s.uuid == d.shopUuid
    ensures s.owner.None? <==> d.ownerUuid !in entityMap
    ensures s.owner.Some? ==> entityMap[d.ownerUuid] == NpcEntity(s.owner.value)
  {
    var owner := LookupOwner(entityMap, d.ownerUuid);
    Shop(d.shopType, d.shopUuid, nameOf(d.shopType, d.shopUuid), if owner.Found? then Some(owner.npc) else None)
  }

  function RestoredShops(dtos: seq<ShopDto>, entityMap: map<Uuid, Entity>, nameOf: (string, Uuid) -> string): (r: seq<Shop>)
    requires OwnersCastable(dtos, entityMap)
    ensures |r| == |dtos|
  {
    if dtos == [] then []
    else RestoredShops(dtos[..|dtos| - 1], entityMap, nameOf) + [RestoredShop(dtos[|dtos| - 1], entityMap, nameOf)]
  }

  lemma {:induction false} RestoredShopsAt(dtos: seq<ShopDto>, entityMap: map<Uuid, Entity>,
                                           nameOf: (string, Uuid) -> string, i: int)
    requires OwnersCastable(dtos, entityMap) && 0 <= i < |dtos|
    ensures RestoredShops(dtos, entityMap, nameOf)[i] == RestoredShop(dtos[i], entityMap, nameOf)
  {
    if i < |dtos| - 1 {
      RestoredShopsAt(dtos[..|dtos| - 1], entityMap, nameOf, i);
    }
  }

  /**
   * townDtoToTown: a new town with the snapshot's name, id and shop count whose shop list is
   * replaced by the restored shops, in snapshot order. None where the source throws: some
   * owner id names an entity that is not an NPC.
   */
  method TownDtoToTown(dto: TownDto, entityMap: map<Uuid, Entity>, nameOf: (string, Uuid) -> string)
    returns (t: Option<Town>)
    ensures t.None? <==> !OwnersCastable(dto.shopsInTown, entityMap)
    ensures t.Some? ==>
              && fresh(t.value)
              && t.value.locationName == dto.townName
              && t.value.locationUuid == dto.townUuid
              && t.value.shopCount == dto.shopCount
              && t.value.shopsInTown == RestoredShops(dto.shopsInTown, entityMap, nameOf)
  {
    var town := new Town.Restored(dto.townName, dto.townUuid, dto.shopCount);
    var shops: seq<Shop> := [];
    for i := 0 to |dto.shopsInTown|
      invariant OwnersCastable(dto.shopsInTown[..i], entityMap)
      invariant shops == RestoredShops(dto.shopsInTown[..i], entityMap, nameOf)
    {
      var d := dto.shopsInTown[i];
      if LookupOwner(entityMap, d.ownerUuid).NotAnNpc? {
        assert d in dto.shopsInTown;
        return None;
      }
      assert dto.shopsInTown[..i + 1] == dto.shopsInTown[..i] + [d];
      shops := shops + [RestoredShop(d, entityMap, nameOf)];
    }
    assert dto.shopsInTown[..|dto.shopsInTown|] == dto.shopsInTown;
    town.SetShopsInTown(shops);
    t := Some(town);
  }

  /** Every shop's owner is registered under its own id, as NPC construction does. */
  predicate OwnersRegistered(shops: seq<Shop>, entityMap: map<Uuid, Entity>)
    requires AllOwned(shops)
  {
    forall s <- shops :: s.owner.value.uuid in entityMap && entityMap[s.owner.value.uuid] == NpcEntity(s.owner.value)
  }

  /**
   * Saving shops and restoring them gives back the same shops in the same order, provided the
   * owners are still registered and each name is the one the Shop constructor gives.
   */
  lemma ShopsRoundTrip(shops: seq<Shop>, entityMap: map<Uuid, Entity>, nameOf: (string, Uuid) -> string)
    requires AllOwned(shops) && OwnersRegistered(shops, entityMap)
    requires forall s <- shops :: s.name == nameOf(s.shopType, s.uuid)
    ensures OwnersCastable(ShopDtos(shops), entityMap)
    ensures RestoredShops(ShopDtos(shops), entityMap, nameOf) == shops
  {
    var dtos := ShopDtos(shops);
    forall i | 0 <= i < |dtos|
      ensures dtos[i] == ShopToDto(shops[i])
    {
      ShopDtosAt(shops, i);
    }
    assert OwnersCastable(dtos, entityMap) by {
      forall d <- dtos
        ensures !LookupOwner(entityMap, d.ownerUuid).NotAnNpc?
      {
        var i :| 0 <= i < |dtos| && dtos[i] == d;
        assert shops[i] in shops;
      }
    }
    var r := RestoredShops(dtos, entityMap, nameOf);
    forall i | 0 <= i < |shops|
      ensures r[i] == shops[i]
    {
      RestoredShopsAt(dtos, entityMap, nameOf, i);
      assert shops[i] in shops;
    }
  }

  /**
   * Saving a town and restoring the snapshot gives back its name, id, shop count and shops, in
   * order, when every shop has a registered owner and the name the Shop constructor gives.
   */
  method SaveAndRestoreTown(t: Town, entityMap: map<Uuid, Entity>, nameOf: (string, Uuid) -> string)
    returns (t2: Town)
    requires AllOwned(t.shopsInTown) && OwnersRegistered(t.shopsInTown, entityMap)
    requires forall s <- t.shopsInTown :: s.name == nameOf(s.shopType, s.uuid)
    ensures fresh(t2)
    ensures t2.locationName == t.locationName && t2.locationUuid == t.locationUuid
    ensures t2.shopCount == t.shopCount && t2.shopsInTown == t.shopsInTown
  {
    var dto := TownToDto(t);
    ShopsRoundTrip(t.shopsInTown, entityMap, nameOf);
    var restored := TownDtoToTown(dto.value, entityMap, nameOf);
    t2 := restored.value;
  }

  /** A shop whose owner id is unknown is still restored, with no owner. */
  lemma MissingOwnerTolerated(d: ShopDto, entityMap: map<Uuid, Entity>, nameOf: (string, Uuid) -> string)
    requires d.ownerUuid !in entityMap
    ensures OwnersCastable([d], entityMap)
    ensures RestoredShops([d], entityMap, nameOf) == [Shop(d.shopType, d.shopUuid, nameOf(d.shopType, d.shopUuid), None)]
  {
    assert [d][..0] == [];
  }
}
