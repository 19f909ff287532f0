/**
 * The item registry of Item.java: every item is registered, as a side effect of
 * its construction, in one process-wide map keyed by its UUID. A second item with
 * an identifier already present replaces the earlier entry (HashMap.put).
 */
module Items {
  import opened Common

  /** The item hierarchy: a plain Item, a Weapon or an Armor piece. */
  datatype ItemKind =
    | PlainItem
    | WeaponItem(damage: real, durability: real)
    | ArmorItem(level: int, qualityIndex: nat)

  datatype Item = Item(name: string, uuid: Uuid, kind: ItemKind)

  /** The classes getItemsByType can be asked for: Item itself, Weapon or Armor. */
  datatype ItemClass = AnyItem | WeaponClass | ArmorClass

  /** Class.isInstance for the item hierarchy. */
  predicate IsInstance(it: Item, c: ItemClass) {
    match c
    case AnyItem => true
    case WeaponClass => it.kind.WeaponItem?
    case ArmorClass => it.kind.ArmorItem?
  }

  /** The registry after `itemMap.put(it.uuid, it)`. */
  function Put(m: map<Uuid, Item>, it: Item): map<Uuid, Item> {
    m[it.uuid := it]
  }

  /** put stores the item under its own id and leaves every other key as it was. */
  lemma PutSemantics(m: map<Uuid, Item>, it: Item)
    ensures var r := Put(m, it);
      && it.uuid in r && r[it.uuid] == it
      && (forall k :: k != it.uuid ==> (k in r <==> k in m) && (k in m ==> r[k] == m[k]))
      && r.Keys == m.Keys + {it.uuid}
  {
  }

  /**
   * put grows the registry by one exactly when the id was new: a duplicate id overwrites the
   * earlier item and the size stays the same.
   */
  lemma PutSize(m: map<Uuid, Item>, it: Item)
    ensures |Put(m, it)| == if it.uuid in m then |m| else |m| + 1
  {
    var r := Put(m, it);
    if it.uuid in m {
      assert r.Keys == m.Keys;
    } else {
      assert r.Keys == m.Keys + {it.uuid} && it.uuid !in m.Keys;
    }
  }

  /** The registry after registering `items` one after the other, in order. */
  function PutAll(m: map<Uuid, Item>, items: seq<Item>): map<Uuid, Item> {
    if items == [] then m else Put(PutAll(m, items[..|items| - 1]), items[|items| - 1])
  }

  /** Registering one more item after `items`. */
  lemma PutAllSnoc(m: map<Uuid, Item>, items: seq<Item>, it: Item)
    ensures PutAll(m, items + [it]) == Put(PutAll(m, items), it)
  {
    assert (items + [it])[..|items|] == items;
  }

  /** Registering a concatenation is registering one part after the other. */
  lemma {:induction false} PutAllAppend(m: map<Uuid, Item>, a: seq<Item>, b: seq<Item>)
    ensures PutAll(m, a + b) == PutAll(PutAll(m, a), b)
  {
    if b == [] {
      assert a + b == a;
    } else {
      assert (a + b)[..|a + b| - 1] == a + b[..|b| - 1];
      PutAllAppend(m, a, b[..|b| - 1]);
    }
  }

  /** After registering `items`, every id among them is registered; other keys keep their entry. */
  lemma {:induction false} PutAllKeys(m: map<Uuid, Item>, items: seq<Item>, k: Uuid)
    ensures (exists i :: 0 <= i < |items| && items[i].uuid == k) ==> k in PutAll(m, items)
    ensures (forall i :: 0 <= i < |items| ==> items[i].uuid != k) ==>
              (k in PutAll(m, items) <==> k in m) && (k in m ==> PutAll(m, items)[k] == m[k])
  {
    if items != [] {
      var init := items[..|items| - 1];
      PutAllKeys(m, init, k);
      if exists i :: 0 <= i < |items| && items[i].uuid == k {
        var i :| 0 <= i < |items| && items[i].uuid == k;
        if i < |items| - 1 {
          assert init[i].uuid == k;
        }
      }
      if forall i :: 0 <= i < |items| ==> items[i].uuid != k {
        assert forall i :: 0 <= i < |init| ==> init[i].uuid == items[i].uuid;
      }
    }
  }

  /**
   * A duplicate id overwrites: after registering `items`, an id is mapped to the last item
   * registered under it.
   */
  lemma {:induction false} PutAllLastWins(m: map<Uuid, Item>, items: seq<Item>, j: nat)
    requires j < |items| && forall i :: j < i < |items| ==> items[i].uuid != items[j].uuid
    ensures items[j].uuid in PutAll(m, items) && PutAll(m, items)[items[j].uuid] == items[j]
  {
    var init := items[..|items| - 1];
    if j < |items| - 1 {
      PutAllLastWins(m, init, j);
      assert items[|items| - 1].uuid != items[j].uuid;
    }
  }

  /** The items of `s` that are instances of `c`, in order (the stream filter of getItemsByType). */
  function Instances(c: ItemClass, s: seq<Item>): seq<Item> {
    if s == [] then []
    else Instances(c, s[..|s| - 1]) + (if IsInstance(s[|s| - 1], c) then [s[|s| - 1]] else [])
  }

  /** Filtering keeps exactly the instances, in a sub-multiset of the input. */
  lemma {:induction false} InstancesExact(c: ItemClass, s: seq<Item>)
    ensures forall x :: x in Instances(c, s) <==> x in s && IsInstance(x, c)
    ensures multiset(Instances(c, s)) <= multiset(s)
    ensures |Instances(c, s)| <= |s|
  {
    if s != [] {
      var init := s[..|s| - 1];
      InstancesExact(c, init);
      assert s == init + [s[|s| - 1]];
    }
  }

  /** Asking for Item itself returns every registered item. */
  lemma {:induction false} InstancesOfAnyItem(s: seq<Item>)
    ensures Instances(AnyItem, s) == s
  {
    if s != [] {
      InstancesOfAnyItem(s[..|s| - 1]);
      assert s == s[..|s| - 1] + [s[|s| - 1]];
    }
  }

  /** The stream filter of getItemsByType: one pass keeping the instances of `c`, in order. */
  method FilterInstances(c: ItemClass, s: seq<Item>) returns (r: seq<Item>)
    ensures r == Instances(c, s)
  {
    r := [];
    for i := 0 to |s|
      invariant r == Instances(c, s[..i])
    {
      assert s[..i + 1][..i] == s[..i];
      if IsInstance(s[i], c) {
        r := r + [s[i]];
      }
    }
    assert s[..|s|] == s;
  }

  /** The registered items listed in the order of `order`. */
  function ValuesAt(m: map<Uuid, Item>, order: seq<Uuid>): (r: seq<Item>)
    requires forall i :: 0 <= i < |order| ==> order[i] in m
    ensures |r| == |order| && forall i :: 0 <= i < |order| ==> r[i] == m[order[i]]
  {
    if order == [] then [] else ValuesAt(m, order[..|order| - 1]) + [m[order[|order| - 1]]]
  }

  /** An enumeration of the keys of `m`: each key exactly once, in some order. */
  ghost predicate IsEnumeration(m: map<Uuid, Item>, order: seq<Uuid>) {
    && |order| == |m|
    && (forall k :: k in m <==> k in order)
    && (forall i, j :: 0 <= i < j < |order| ==> order[i] != order[j])
  }

  /** Item.itemMap: the process-wide registry of items. */
  class ItemRegistry {
    var itemMap: map<Uuid, Item>

    constructor ()
      ensures itemMap == map[]
    {
      itemMap := map[];
    }

    /** Item's constructor: stores the name and id, then registers the new item under its id. */
    method NewItem(name: string, uuid: Uuid, kind: ItemKind) returns (it: Item)
      modifies this
      ensures it.name == name && it.uuid == uuid && it.kind == kind
      ensures itemMap == Put(old(itemMap), it)
    {
      it := Item(name, uuid, kind);
      itemMap := itemMap[uuid := it];
    }

    /** Item.getItems: the values of the registry, one per key, in the map's iteration order. */
    method GetItems() returns (items: seq<Item>, ghost order: seq<Uuid>)
      ensures IsEnumeration(itemMap, order)
      ensures |items| == |itemMap|
      ensures forall i :: 0 <= i < |order| ==> order[i] in itemMap && items[i] == itemMap[order[i]]
    {
      items, order := [], [];
      var remaining := itemMap.Keys;
      while remaining != {}
        invariant remaining <= itemMap.Keys
        invariant |order| + |remaining| == |itemMap.Keys|
        invariant |items| == |order|
        invariant forall k :: k in itemMap ==> (k in order <==> k !in remaining)
        invariant forall i :: 0 <= i < |order| ==> order[i] in itemMap && items[i] == itemMap[order[i]]
        invariant forall i, j :: 0 <= i < j < |order| ==> order[i] != order[j]
        decreases remaining
      {
        var k :| k in remaining;
        assert remaining == (remaining - {k}) + {k};
        items, order := items + [itemMap[k]], order + [k];
        remaining := remaining - {k};
      }
      assert |itemMap.Keys| == |itemMap|;
    }

    /** Item.getItemsByType: the registered items that are instances of `c`, in the order of getItems. */
    method GetItemsByType(c: ItemClass) returns (items: seq<Item>, ghost order: seq<Uuid>)
      ensures IsEnumeration(itemMap, order)
      ensures items == Instances(c, ValuesAt(itemMap, order))
      ensures forall x :: x in items <==> x in itemMap.Values && IsInstance(x, c)
      ensures multiset(items) <= multiset(ValuesAt(itemMap, order))
    {
      var all;
      all, order := GetItems();
      assert all == ValuesAt(itemMap, order);
      items := FilterInstances(c, all);
      InstancesExact(c, all);
      forall x | x in itemMap.Values ensures x in all {
        var k :| k in itemMap && itemMap[k] == x;
        var i :| 0 <= i < |order| && order[i] == k;
      }
    }
  }
}
