/**
 * The admin menu store: the catalogue of menu items an administrator maintains,
 * persisted as one whole collection under the `admin_menu_items` storage key.
 * Every write replaces the whole collection; outside a browser nothing is read or written.
 */
module MenuAdmin {
  import opened Wrappers
  import opened Seqs
  import opened KeyedSeq
  import opened Food

  /** An add-on that can be put on a dish; a price of 0 marks a free one. */
  datatype Addon = Addon(id: int, name: string, price: int)

  /** A persisted menu item. `defaultAddons` and `extraAddons` are carried but never read by pricing. */
  datatype AdminMenuItem = AdminMenuItem(
    id: int,
    name: string,
    subtitle: string,
    basePrice: int,
    foodType: FoodType,
    image: string,
    category: string,
    defaultAddons: seq<Addon>,
    extraAddons: seq<Addon>)

  /** A menu item before the store has given it an id (`Omit<AdminMenuItem, 'id'>`). */
  datatype MenuItemDraft = MenuItemDraft(
    name: string,
    subtitle: string,
    basePrice: int,
    foodType: FoodType,
    image: string,
    category: string,
    defaultAddons: seq<Addon>,
    extraAddons: seq<Addon>)
  {
    /** The draft's fields spread into a record together with `id`. */
    function WithId(id: int): (item: AdminMenuItem)
      ensures item.id == id && Draft(item) == this
    {
      AdminMenuItem(id, name, subtitle, basePrice, foodType, image, category, defaultAddons, extraAddons)
    }
  }

  /** Everything but the id of a stored item. */
  function Draft(item: AdminMenuItem): MenuItemDraft {
    MenuItemDraft(item.name, item.subtitle, item.basePrice, item.foodType, item.image,
                  item.category, item.defaultAddons, item.extraAddons)
  }

  function ItemId(item: AdminMenuItem): int {
    item.id
  }

  /** `items.map(item => item.id === u.id ? u : item)`. */
  function Replaced(items: seq<AdminMenuItem>, u: AdminMenuItem): (r: seq<AdminMenuItem>)
    ensures |r| == |items|
    ensures forall i :: 0 <= i < |r| ==> r[i] == u || r[i] == items[i]
    decreases |items|
  {
    if items == [] then []
    else
      var rest := Replaced(items[1..], u);
      assert forall i :: 1 <= i < |items| ==> items[i] == items[1..][i - 1];
      [if items[0].id == u.id then u else items[0]] + rest
  }

  /** `items.filter(item => item.id !== id)`. */
  function Removed(items: seq<AdminMenuItem>, id: int): (r: seq<AdminMenuItem>)
    ensures |r| <= |items|
    ensures forall i :: 0 <= i < |r| ==> r[i] in items && r[i].id != id
    ensures forall i :: 0 <= i < |items| && items[i].id != id ==> items[i] in r
  {
    Filter(items, (item: AdminMenuItem) => item.id != id)
  }

  /** Replacing keeps the length and position of every item, swaps in `u` exactly where the id matches, and leaves every other item as it was. */
  lemma {:induction false} ReplacedAt(items: seq<AdminMenuItem>, u: AdminMenuItem)
    ensures |Replaced(items, u)| == |items|
    ensures forall i :: 0 <= i < |items| ==>
              Replaced(items, u)[i] == if items[i].id == u.id then u else items[i]
    decreases |items|
  {
    if items != [] {
      ReplacedAt(items[1..], u);
      var r := Replaced(items, u);
      forall i | 0 < i < |items| ensures r[i] == if items[i].id == u.id then u else items[i] {
        assert r[i] == Replaced(items[1..], u)[i - 1];
        assert items[i] == items[1..][i - 1];
      }
    }
  }

  /** Updating with an id that is not stored changes nothing. */
  lemma ReplacedAbsent(items: seq<AdminMenuItem>, u: AdminMenuItem)
    requires !HasKey(items, u.id, ItemId)
    ensures Replaced(items, u) == items
  {
    ReplacedAt(items, u);
    forall i | 0 <= i < |items| ensures items[i].id != u.id {
      assert ItemId(items[i]) == items[i].id;
    }
  }

  /** Updating twice with the same record is updating once. */
  lemma ReplacedIdempotent(items: seq<AdminMenuItem>, u: AdminMenuItem)
    ensures Replaced(Replaced(items, u), u) == Replaced(items, u)
  {
    ReplacedAt(items, u);
    ReplacedAt(Replaced(items, u), u);
  }

  /** After deleting, no item has the id; every other item is kept as often as it occurred, and deleting again changes nothing. */
  lemma RemovedSpec(items: seq<AdminMenuItem>, id: int, x: AdminMenuItem)
    ensures !HasKey(Removed(items, id), id, ItemId)
    ensures x.id != id ==> multiset(Removed(items, id))[x] == multiset(items)[x]
    ensures Removed(Removed(items, id), id) == Removed(items, id)
  {
    var r := Removed(items, id);
    forall i | 0 <= i < |r| ensures ItemId(r[i]) != id {
      assert r[i].id != id;
    }
    FilterCount(items, (item: AdminMenuItem) => item.id != id, x);
    FilterIdempotent(items, (item: AdminMenuItem) => item.id != id);
  }

  /** Deleting keeps relative order: deleting from a concatenation deletes from each part. */
  lemma RemovedConcat(a: seq<AdminMenuItem>, b: seq<AdminMenuItem>, id: int)
    ensures Removed(a + b, id) == Removed(a, id) + Removed(b, id)
  {
    FilterConcat(a, b, (item: AdminMenuItem) => item.id != id);
  }

  /** Whether `i` is the position of the first item with the given id. */
  predicate IsFirstWithId(items: seq<AdminMenuItem>, i: int, id: int) {
    0 <= i < |items| && items[i].id == id && forall j :: 0 <= j < i ==> items[j].id != id
  }

  /** The `MenuAdminService`. */
  class MenuAdminService {
    /** Whether the code runs in a browser (`isPlatformBrowser(PLATFORM_ID)`). */
    var isBrowser: bool
    /** The `admin_menu_items` storage key: absent, or the stored collection. */
    var stored: Option<seq<AdminMenuItem>>

    constructor(isBrowser: bool, stored: Option<seq<AdminMenuItem>>)
      ensures this.isBrowser == isBrowser && this.stored == stored
    {
      this.isBrowser := isBrowser;
      this.stored := stored;
    }

    /** `getAll()`: the stored collection, or nothing outside a browser or when the key is absent. */
    function GetAll(): (r: seq<AdminMenuItem>)
      reads this
      ensures !isBrowser || stored.None? ==> r == []
      ensures isBrowser && stored.Some? ==> r == stored.value
    {
      if !isBrowser then [] else stored.GetOr([])
    }

    /** `getById(id)`: the first stored item with that id, if any. */
    function GetById(id: int): (r: Option<AdminMenuItem>)
      reads this
      ensures r.None? <==> !HasKey(GetAll(), id, ItemId)
      ensures r.Some? ==> exists i :: IsFirstWithId(GetAll(), i, id) && GetAll()[i] == r.value
    {
      var items := GetAll();
      match FindIndex(items, id, ItemId)
      case Some(i) => (assert IsFirstWithId(items, i, id); Some(items[i]))
      case None => None
    }

    /** `save(items)`: overwrite the whole stored collection (a browser-only write). */
    method Save(items: seq<AdminMenuItem>)
      modifies this
      ensures isBrowser == old(isBrowser)
      ensures stored == if isBrowser then Some(items) else old(stored)
    {
      if !isBrowser {
        return;
      }
      stored := Some(items);
    }

    /** `add(item)`: append the draft under the id the clock gave (`Date.now()`, here the parameter `now`). */
    method Add(item: MenuItemDraft, now: int)
      modifies this
      ensures isBrowser == old(isBrowser)
      ensures stored == if isBrowser then Some(old(GetAll()) + [item.WithId(now)]) else old(stored)
      ensures GetAll() == if isBrowser then old(GetAll()) + [item.WithId(now)] else []
    {
      var items := GetAll();
      var newItem := item.WithId(now);
      items := items + [newItem];
      Save(items);
    }

    /** `update(updatedItem)`: replace every stored item whose id matches. */
    method Update(updatedItem: AdminMenuItem)
      modifies this
      ensures isBrowser == old(isBrowser)
      ensures stored == if isBrowser then Some(Replaced(old(GetAll()), updatedItem)) else old(stored)
      ensures |GetAll()| == |old(GetAll())|
      ensures forall i :: 0 <= i < |GetAll()| ==>
                GetAll()[i] == if old(GetAll())[i].id == updatedItem.id then updatedItem else old(GetAll())[i]
    {
      var items := Replaced(GetAll(), updatedItem);
      ReplacedAt(GetAll(), updatedItem);
      Save(items);
    }

    /** `delete(id)`: keep only the stored items with a different id. */
    method Delete(id: int)
      modifies this
      ensures isBrowser == old(isBrowser)
      ensures stored == if isBrowser then Some(Removed(old(GetAll()), id)) else old(stored)
      ensures !HasKey(GetAll(), id, ItemId)
    {
      var items := Removed(GetAll(), id);
      if |GetAll()| > 0 { RemovedSpec(GetAll(), id, GetAll()[0]); }
      Save(items);
    }

    /** `seedIfEmpty(items)`: the one-time migration, which writes only into an empty store. */
    method SeedIfEmpty(items: seq<AdminMenuItem>)
      modifies this
      ensures isBrowser == old(isBrowser)
      ensures stored == if isBrowser && |old(GetAll())| == 0 then Some(items) else old(stored)
      ensures |old(GetAll())| > 0 ==> GetAll() == old(GetAll())
      ensures isBrowser && |old(GetAll())| == 0 ==> GetAll() == items
    {
      if !isBrowser {
        return;
      }
      if |GetAll()| > 0 {
        return;
      }
      Save(items);
    }

    /** `clearAll()`: remove the storage key. */
    method ClearAll()
      modifies this
      ensures isBrowser == old(isBrowser)
      ensures stored == if isBrowser then None else old(stored)
      ensures GetAll() == []
    {
      if !isBrowser {
        return;
      }
      stored := None;
    }
  }
}
