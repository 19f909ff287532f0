/**
 * Town: a named location holding a shop count and a list of shops. Only the parts the
 * snapshot layer touches are modelled.
 */
module Towns {
  import opened Common
  import opened Entities

  /** A shop: its type, id, name and owner (null in the source when the owner is unknown). */
  datatype Shop = Shop(shopType: string, uuid: Uuid, name: string, owner: Option<Npc>)

  class Town {
    const locationName: string
    const locationUuid: Uuid
    var shopCount: int
    var shopsInTown: seq<Shop>

    /**
     * The constructor the snapshot layer uses (Town(name, uuid, shopCount, false)): no shops
     * are generated; the caller installs them with SetShopsInTown.
     */
    constructor Restored(name: string, uuid: Uuid, shopCount: int)
      ensures locationName == name && locationUuid == uuid
      ensures this.shopCount == shopCount && shopsInTown == []
    {
      locationName, locationUuid := name, uuid;
      this.shopCount, shopsInTown := shopCount, [];
    }

    /** setShopsInTown: replaces the shop list wholesale. */
    method SetShopsInTown(shops: seq<Shop>)
      modifies this`shopsInTown
      ensures shopsInTown == shops
    {
      shopsInTown := shops;
    }
  }
}
