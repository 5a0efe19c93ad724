/**
 * The shopper's menu page: the display records built from the admin store (or the
 * fallback menu when the store is empty), the type filter, the add-on customisation
 * dialog that prices one dish and sends it to the cart, and the wishlist.
 */
module MenuPage {
  import opened Wrappers
  import opened Seqs
  import opened KeyedSeq
  import opened Food
  import opened MenuAdmin
  import opened CartStore

  /** A dish as the menu page shows it. */
  datatype MenuFood = MenuFood(
    id: int,
    name: string,
    subtitle: string,
    basePrice: int,
    category: string,
    foodType: FoodType,
    image: string,
    freeAddonIds: seq<int>,
    addons: seq<Addon>)

  /** The reduced record the wishlist keeps for a dish. */
  datatype WishlistEntry = WishlistEntry(id: int, name: string, basePrice: int)

  /** The type filter: `'all'` or one food type. */
  datatype TypeFilter = AllTypes | OnlyType(foodType: FoodType)

  function AddonId(a: Addon): int {
    a.id
  }

  function EntryId(w: WishlistEntry): int {
    w.id
  }

  /** The free add-ons every dish offers, all pre-selected when the dialog opens. */
  const FreeAddonList: seq<Addon> := [
    Addon(1, "Onion", 0),
    Addon(2, "Tomato", 0),
    Addon(3, "Cucumber", 0),
    Addon(4, "Lemon", 0),
    Addon(5, "Coriander", 0)
  ]

  /** The paid add-ons offered with vegetarian and egg dishes. */
  const VegEggPremiumAddons: seq<Addon> := [
    Addon(6, "Sweet Corn", 20),
    Addon(7, "Broccoli", 25),
    Addon(8, "Beans", 15),
    Addon(9, "Peas", 15),
    Addon(10, "Spinach", 20),
    Addon(15, "Bell Pepper", 15)
  ]

  /** The paid add-ons offered with non-vegetarian dishes. */
  const NonVegPremiumAddons: seq<Addon> := [
    Addon(11, "Capsicum", 20),
    Addon(12, "Broccoli", 25),
    Addon(13, "Cheese", 30),
    Addon(14, "Mushroom", 25),
    Addon(16, "Bell Pepper", 15)
  ]

  /** The subtitle shown for an admin item whose subtitle is empty. */
  const DefaultSubtitle: string := "Healthy \U{2022} Fresh \U{2022} Protein-rich"

  /** The category every display record carries, whatever the admin item's category. */
  const DisplayCategory: string := "sprouts"

  /** The paid add-ons on offer for a food type. */
  function PremiumAddonsFor(t: FoodType): seq<Addon> {
    match t
    case Veg | Egg => VegEggPremiumAddons
    case NonVeg => NonVegPremiumAddons
  }

  /** `addons.map(a => a.id)`. */
  function AddonIds(addons: seq<Addon>): (ids: seq<int>)
    ensures |ids| == |addons| && forall i :: 0 <= i < |addons| ==> ids[i] == addons[i].id
  {
    seq(|addons|, i requires 0 <= i < |addons| => addons[i].id)
  }

  predicate IsFree(a: Addon) {
    a.price == 0
  }

  predicate IsPremium(a: Addon) {
    a.price > 0
  }

  /** `getFreeAddons(food)`: the dish's add-ons priced 0, in order. */
  function GetFreeAddons(food: MenuFood): (r: seq<Addon>)
    ensures forall i :: 0 <= i < |r| ==> r[i] in food.addons && r[i].price == 0
    ensures forall i :: 0 <= i < |food.addons| && food.addons[i].price == 0 ==> food.addons[i] in r
  {
    Filter(food.addons, IsFree)
  }

  /** `getPremiumAddons(food)`: the dish's add-ons priced above 0, in order. */
  function GetPremiumAddons(food: MenuFood): (r: seq<Addon>)
    ensures forall i :: 0 <= i < |r| ==> r[i] in food.addons && r[i].price > 0
    ensures forall i :: 0 <= i < |food.addons| && food.addons[i].price > 0 ==> food.addons[i] in r
  {
    Filter(food.addons, IsPremium)
  }

  /** Add-ons chosen by `type`, as `mapAdminToFood` and `getFallbackMenu` build them: the five free ones, then the type's paid ones. */
  predicate TypeDrivenAddons(f: MenuFood) {
    f.addons == FreeAddonList + PremiumAddonsFor(f.foodType) && f.freeAddonIds == [1, 2, 3, 4, 5]
  }

  /** The five free ids are 1 to 5. */
  lemma FreeAddonIdsAreOneToFive()
    ensures AddonIds(FreeAddonList) == [1, 2, 3, 4, 5]
  {
  }

  lemma FreeAddonsAreFree()
    ensures forall i :: 0 <= i < |FreeAddonList| ==> FreeAddonList[i].price == 0
  {
  }

  lemma PremiumAddonsArePaid(t: FoodType)
    ensures forall i :: 0 <= i < |PremiumAddonsFor(t)| ==> PremiumAddonsFor(t)[i].price > 0
  {
  }

  /** The free ids 1 to 5 lie below every paid id, and each type's paid ids are distinct. */
  lemma TypeAddonIdsDistinct(t: FoodType)
    ensures DistinctKeys(FreeAddonList + PremiumAddonsFor(t), AddonId)
  {
    var s := FreeAddonList + PremiumAddonsFor(t);
    assert forall i :: 0 <= i < |s| ==> AddonId(s[i]) == AddonIds(s)[i];
    match t
    case Veg =>
      assert AddonIds(s) == [1, 2, 3, 4, 5, 6, 7, 8, 9, 10, 15];
    case Egg =>
      assert AddonIds(s) == [1, 2, 3, 4, 5, 6, 7, 8, 9, 10, 15];
    case NonVeg =>
      assert AddonIds(s) == [1, 2, 3, 4, 5, 11, 12, 13, 14, 16];
  }

  /** For a dish built by the type rule, the free add-ons are the five free ones (ids 1 to 5, listed in `freeAddonIds`), the paid ones are exactly those of its type, and no two add-ons share an id. */
  lemma AddonSetsByType(f: MenuFood)
    requires TypeDrivenAddons(f)
    ensures GetFreeAddons(f) == FreeAddonList
    ensures AddonIds(GetFreeAddons(f)) == f.freeAddonIds
    ensures GetPremiumAddons(f) == PremiumAddonsFor(f.foodType)
    ensures DistinctKeys(f.addons, AddonId)
  {
    var premium := PremiumAddonsFor(f.foodType);
    FreeAddonsAreFree();
    PremiumAddonsArePaid(f.foodType);
    FilterConcat(FreeAddonList, premium, IsFree);
    FilterAll(FreeAddonList, IsFree);
    FilterNone(premium, IsFree);
    FilterConcat(FreeAddonList, premium, IsPremium);
    FilterNone(FreeAddonList, IsPremium);
    FilterAll(premium, IsPremium);
    assert FreeAddonList + [] == FreeAddonList;
    assert [] + premium == premium;
    FreeAddonIdsAreOneToFive();
    TypeAddonIdsDistinct(f.foodType);
  }

  /** `mapAdminToFood(item)`: copies id, name, price, type and image, falls back to the default subtitle for an empty one, files the dish under "sprouts", and attaches the add-ons of its type. */
  function MapAdminToFood(item: AdminMenuItem): (f: MenuFood)
    ensures f.id == item.id && f.name == item.name && f.basePrice == item.basePrice
    ensures f.foodType == item.foodType && f.image == item.image
    ensures f.subtitle == if item.subtitle == "" then DefaultSubtitle else item.subtitle
    ensures f.category == DisplayCategory
    ensures TypeDrivenAddons(f)
  {
    FreeAddonIdsAreOneToFive();
    MenuFood(
      item.id,
      item.name,
      if item.subtitle != "" then item.subtitle else DefaultSubtitle,
      item.basePrice,
      DisplayCategory,
      item.foodType,
      item.image,
      AddonIds(FreeAddonList),
      FreeAddonList + PremiumAddonsFor(item.foodType))
  }

  /** The pictures of the three fallback bowls. */
  const MoongBowlImage: string := "https://images.unsplash.com/photo-1540420828642-fca2c5c18abe?w=600&h=400&fit=crop&crop=center"
  const EggBowlImage: string := "https://images.unsplash.com/photo-1556909114-f6e7ad7d3136?w=600&h=400&fit=crop&crop=center"
  const ChickenBowlImage: string := "https://images.unsplash.com/photo-1603360946369-dc9bb6258143?w=600&h=400&fit=crop&crop=center"

  /** A fallback bowl: the category is `'sprouts'`, all five free add-ons are pre-selected, and the add-ons follow the food type. */
  function Bowl(id: int, name: string, subtitle: string, basePrice: int, foodType: FoodType, image: string): (f: MenuFood)
    ensures f.id == id && f.foodType == foodType && TypeDrivenAddons(f)
  {
    MenuFood(id, name, subtitle, basePrice, DisplayCategory, foodType, image,
      [1, 2, 3, 4, 5], FreeAddonList + PremiumAddonsFor(foodType))
  }

  /** `getFallbackMenu()`: the three sprout bowls, one of each food type, shown while the admin store is empty. */
  function FallbackMenu(): (r: seq<MenuFood>)
    ensures |r| == 3
    ensures r[0].foodType == Veg && r[1].foodType == Egg && r[2].foodType == NonVeg
    ensures forall i :: 0 <= i < |r| ==> TypeDrivenAddons(r[i]) && r[i].id == i + 1
  {
    var moong := Bowl(1, "Moong Sprouts Bowl", "Healthy \U{2022} Fresh \U{2022} Protein-rich", 80, Veg,
      MoongBowlImage);
    var egg := Bowl(2, "Egg Sprouts Bowl", "High Protein \U{2022} Energizing", 100, Egg,
      EggBowlImage);
    var chicken := Bowl(3, "Chicken Sprouts Bowl", "High Protein \U{2022} Muscle Building", 120, NonVeg,
      ChickenBowlImage);
    [moong, egg, chicken]
  }

  /** `adminItems.map(item => mapAdminToFood(item))`. */
  function MapAll(items: seq<AdminMenuItem>): (r: seq<MenuFood>)
    ensures |r| == |items| && forall i :: 0 <= i < |items| ==> r[i] == MapAdminToFood(items[i])
  {
    seq(|items|, i requires 0 <= i < |items| => MapAdminToFood(items[i]))
  }

  /** The menu `loadMenu` shows for the given admin store contents: the admin items mapped in order when there are any, the fallback menu otherwise; never empty, and every dish's add-ons follow its type. */
  function ResolveMenu(adminItems: seq<AdminMenuItem>): (r: seq<MenuFood>)
    ensures |adminItems| > 0 ==> r == MapAll(adminItems)
    ensures |adminItems| == 0 ==> r == FallbackMenu()
    ensures |r| > 0
    ensures forall i :: 0 <= i < |r| ==> TypeDrivenAddons(r[i])
  {
    if |adminItems| > 0 then MapAll(adminItems) else FallbackMenu()
  }

  /** The test `f => f.type === t`. */
  function OfType(t: FoodType): MenuFood -> bool {
    (f: MenuFood) => f.foodType == t
  }

  /** `filteredFoods`: every dish for `'all'`, otherwise exactly the dishes of the chosen type, in order. */
  function FilterByType(foods: seq<MenuFood>, selected: TypeFilter): (r: seq<MenuFood>)
    ensures selected.AllTypes? ==> r == foods
    ensures selected.OnlyType? ==> forall i :: 0 <= i < |r| ==> r[i] in foods && r[i].foodType == selected.foodType
    ensures selected.OnlyType? ==> forall i :: 0 <= i < |foods| && foods[i].foodType == selected.foodType ==> foods[i] in r
  {
    if selected.AllTypes? then foods else Filter(foods, OfType(selected.foodType))
  }

  /** The three type filters split the menu: every dish lands in exactly the filter of its own type, as often as it occurs. */
  lemma FilterByTypePartitions(foods: seq<MenuFood>)
    ensures multiset(FilterByType(foods, OnlyType(Veg))) + multiset(FilterByType(foods, OnlyType(Egg))) +
            multiset(FilterByType(foods, OnlyType(NonVeg))) == multiset(foods)
  {
    var sum := multiset(FilterByType(foods, OnlyType(Veg))) + multiset(FilterByType(foods, OnlyType(Egg))) +
               multiset(FilterByType(foods, OnlyType(NonVeg)));
    forall x: MenuFood ensures sum[x] == multiset(foods)[x] {
      FilterCount(foods, OfType(Veg), x);
      FilterCount(foods, OfType(Egg), x);
      FilterCount(foods, OfType(NonVeg), x);
    }
  }

  /** Filtering by type keeps relative order: the filter of a concatenation is the concatenation of the filters. */
  lemma FilterByTypeConcat(a: seq<MenuFood>, b: seq<MenuFood>, selected: TypeFilter)
    ensures FilterByType(a + b, selected) == FilterByType(a, selected) + FilterByType(b, selected)
  {
    if selected.OnlyType? {
      FilterConcat(a, b, OfType(selected.foodType));
    }
  }

  /** The sum of the add-on prices (`addons.reduce((sum, a) => sum + a.price, 0)`). */
  function PriceSum(addons: seq<Addon>): (total: int)
    ensures addons == [] ==> total == 0
    ensures (forall i :: 0 <= i < |addons| ==> addons[i].price >= 0) ==> total >= 0
    decreases |addons|
  {
    if addons == [] then 0 else addons[0].price + PriceSum(addons[1..])
  }

  lemma {:induction false} PriceSumConcat(a: seq<Addon>, b: seq<Addon>)
    ensures PriceSum(a + b) == PriceSum(a) + PriceSum(b)
    decreases |a|
  {
    if a == [] {
      assert a + b == b;
    } else {
      assert (a + b)[1..] == a[1..] + b;
      PriceSumConcat(a[1..], b);
    }
  }

  /** Free add-ons never change a price: the sum over any list of free add-ons is 0. */
  lemma {:induction false} FreeAddonsCostNothing(addons: seq<Addon>)
    requires forall i :: 0 <= i < |addons| ==> IsFree(addons[i])
    ensures PriceSum(addons) == 0
    decreases |addons|
  {
    if addons != [] {
      FreeAddonsCostNothing(addons[1..]);
    }
  }

  /** Dropping the entry at `i` lowers the sum by exactly its price. */
  lemma PriceSumRemoveAt(s: seq<Addon>, i: nat)
    requires i < |s|
    ensures PriceSum(s[..i] + s[i + 1..]) == PriceSum(s) - s[i].price
  {
    var before, after := s[..i], s[i + 1..];
    var rest := [s[i]] + after;
    assert s == before + rest;
    assert rest[1..] == after;
    PriceSumConcat(before, rest);
    PriceSumConcat(before, after);
  }

  /** Toggling an add-on in a selection changes the selection's price by exactly that add-on: up by its price when it was absent, down by the price of the entry removed otherwise. */
  lemma PriceSumToggle(s: seq<Addon>, a: Addon)
    ensures FindIndex(s, a.id, AddonId).None? ==> PriceSum(Toggle(s, a, AddonId)) == PriceSum(s) + a.price
    ensures FindIndex(s, a.id, AddonId).Some? ==>
              PriceSum(Toggle(s, a, AddonId)) == PriceSum(s) - s[FindIndex(s, a.id, AddonId).value].price
  {
    match FindIndex(s, a.id, AddonId)
    case None =>
      PriceSumConcat(s, [a]);
      assert PriceSum([a]) == a.price;
    case Some(i) =>
      PriceSumRemoveAt(s, i);
  }

  /** With non-negative prices, the free and paid add-ons together are all the add-ons. */
  lemma FreeAndPremiumPartition(food: MenuFood)
    requires forall i :: 0 <= i < |food.addons| ==> food.addons[i].price >= 0
    ensures multiset(GetFreeAddons(food)) + multiset(GetPremiumAddons(food)) == multiset(food.addons)
  {
    forall x: Addon ensures (multiset(GetFreeAddons(food)) + multiset(GetPremiumAddons(food)))[x] == multiset(food.addons)[x] {
      FilterCount(food.addons, IsFree, x);
      FilterCount(food.addons, IsPremium, x);
      if x in multiset(food.addons) {
        assert x in food.addons;
        var i :| 0 <= i < |food.addons| && food.addons[i] == x;
        assert x.price >= 0;
      }
    }
  }
  /** The `Menu` page component. */
  class Menu {
    const cart: Cart
    const adminMenu: MenuAdminService
    var isBrowser: bool
    var selectedType: TypeFilter
    var foods: seq<MenuFood>

    var showAddonModal: bool
    /** The dish the dialog was last opened for (`selectedFood`, unset until the first opening). */
    var selectedFood: Option<MenuFood>
    var modalSelectedFreeAddons: seq<Addon>
    var modalSelectedPremiumAddons: seq<Addon>
    var modalTotal: int

    var wishlist: seq<WishlistEntry>
    /** The `wishlist` storage key. */
    var storedWishlist: Option<seq<WishlistEntry>>

    /** While the dialog is open, its total is the dish's price plus the paid add-ons selected. */
    ghost predicate SessionConsistent()
      reads this
    {
      showAddonModal ==>
        selectedFood.Some? && modalTotal == selectedFood.value.basePrice + PriceSum(modalSelectedPremiumAddons)
    }

    /** In a browser the page restores the stored wishlist and loads the menu; elsewhere it starts empty. */
    constructor(cart: Cart, adminMenu: MenuAdminService, isBrowser: bool, storedWishlist: Option<seq<WishlistEntry>>)
      ensures this.cart == cart && this.adminMenu == adminMenu && this.isBrowser == isBrowser
      ensures this.storedWishlist == storedWishlist && selectedType == AllTypes
      ensures wishlist == if isBrowser then storedWishlist.GetOr([]) else []
      ensures foods == if isBrowser then ResolveMenu(adminMenu.GetAll()) else []
      ensures !showAddonModal && selectedFood == None && modalTotal == 0
      ensures modalSelectedFreeAddons == [] && modalSelectedPremiumAddons == []
      ensures SessionConsistent()
    {
      this.cart := cart;
      this.adminMenu := adminMenu;
      this.isBrowser := isBrowser;
      this.storedWishlist := storedWishlist;
      selectedType := AllTypes;
      foods := [];
      showAddonModal := false;
      selectedFood := None;
      modalSelectedFreeAddons := [];
      modalSelectedPremiumAddons := [];
      modalTotal := 0;
      wishlist := [];
      new;
      if isBrowser {
        wishlist := storedWishlist.GetOr([]);
        LoadMenu();
      }
    }

    /** `loadMenu()`. */
    method LoadMenu()
      modifies this`foods
      ensures foods == ResolveMenu(adminMenu.GetAll())
    {
      var adminItems := adminMenu.GetAll();
      if |adminItems| > 0 {
        foods := MapAll(adminItems);
      } else {
        foods := FallbackMenu();
      }
    }

    /** `filteredFoods`. */
    function FilteredFoods(): (r: seq<MenuFood>)
      reads this
      ensures selectedType.AllTypes? ==> r == foods
      ensures selectedType.OnlyType? ==> forall i :: 0 <= i < |r| ==> r[i] in foods && r[i].foodType == selectedType.foodType
      ensures selectedType.OnlyType? ==> forall i :: 0 <= i < |foods| && foods[i].foodType == selectedType.foodType ==> foods[i] in r
    {
      FilterByType(foods, selectedType)
    }

    /** `getPremiumAddonsTotal()`. */
    function GetPremiumAddonsTotal(): (total: int)
      reads this
      ensures modalSelectedPremiumAddons == [] ==> total == 0
      ensures SessionConsistent() && showAddonModal ==> total == modalTotal - selectedFood.value.basePrice
    {
      PriceSum(modalSelectedPremiumAddons)
    }

    /** `isPremiumAddonSelected(id)`. */
    predicate IsPremiumAddonSelected(id: int)
      reads this
      ensures IsPremiumAddonSelected(id) <==> FindIndex(modalSelectedPremiumAddons, id, AddonId).Some?
    {
      HasKey(modalSelectedPremiumAddons, id, AddonId)
    }

    /** `isFreeAddonSelected(id)`. */
    predicate IsFreeAddonSelected(id: int)
      reads this
      ensures IsFreeAddonSelected(id) <==> FindIndex(modalSelectedFreeAddons, id, AddonId).Some?
    {
      HasKey(modalSelectedFreeAddons, id, AddonId)
    }

    /** `isWishlisted(id)`. */
    predicate IsWishlisted(id: int)
      reads this
      ensures IsWishlisted(id) <==> FindIndex(wishlist, id, EntryId).Some?
    {
      HasKey(wishlist, id, EntryId)
    }

    /** `toggleWishlist(food)`: remove the dish's entry if it has one, otherwise append its reduced record; then persist the list. */
    method ToggleWishlist(food: MenuFood)
      modifies this`wishlist, this`storedWishlist
      ensures wishlist == Toggle(old(wishlist), WishlistEntry(food.id, food.name, food.basePrice), EntryId)
      ensures storedWishlist == Some(wishlist)
      ensures DistinctKeys(old(wishlist), EntryId) ==>
                DistinctKeys(wishlist, EntryId) && (IsWishlisted(food.id) <==> !old(IsWishlisted(food.id)))
    {
      var entry := WishlistEntry(food.id, food.name, food.basePrice);
      if DistinctKeys(wishlist, EntryId) {
        ToggleFlips(wishlist, entry, EntryId);
      }
      wishlist := Toggle(wishlist, entry, EntryId);
      storedWishlist := Some(wishlist);
    }

    /** `calculateTotal()`: the dish's price plus the paid add-ons selected. */
    method CalculateTotal()
      requires selectedFood.Some?
      modifies this`modalTotal
      ensures modalTotal == selectedFood.value.basePrice + PriceSum(modalSelectedPremiumAddons)
    {
      var total := selectedFood.value.basePrice;
      total := total + PriceSum(modalSelectedPremiumAddons);
      modalTotal := total;
    }

    /** `openAddonPopup(food)`: every free add-on selected, no paid one, the total at the dish's price. */
    method OpenAddonPopup(food: MenuFood)
      modifies this`selectedFood, this`modalSelectedFreeAddons, this`modalSelectedPremiumAddons,
               this`modalTotal, this`showAddonModal
      ensures selectedFood == Some(food) && showAddonModal
      ensures modalSelectedFreeAddons == GetFreeAddons(food) && modalSelectedPremiumAddons == []
      ensures modalTotal == food.basePrice
      ensures SessionConsistent()
    {
      selectedFood := Some(food);
      var freeAddons := GetFreeAddons(food);
      modalSelectedFreeAddons := freeAddons;
      modalSelectedPremiumAddons := [];
      CalculateTotal();
      showAddonModal := true;
    }

    /** `closeAddonPopup()`: hide the dialog and drop both selections; the dish and total stay as they were. */
    method CloseAddonPopup()
      modifies this`showAddonModal, this`modalSelectedFreeAddons, this`modalSelectedPremiumAddons
      ensures !showAddonModal && modalSelectedFreeAddons == [] && modalSelectedPremiumAddons == []
      ensures SessionConsistent()
    {
      showAddonModal := false;
      modalSelectedFreeAddons := [];
      modalSelectedPremiumAddons := [];
    }

    /** `toggleFreeAddon(addon)`: flip the add-on in the free selection; the total does not move. */
    method ToggleFreeAddon(addon: Addon)
      requires selectedFood.Some?
      modifies this`modalSelectedFreeAddons, this`modalTotal
      ensures modalSelectedFreeAddons == Toggle(old(modalSelectedFreeAddons), addon, AddonId)
      ensures modalTotal == selectedFood.value.basePrice + PriceSum(modalSelectedPremiumAddons)
      ensures old(SessionConsistent()) && showAddonModal ==> modalTotal == old(modalTotal)
      ensures SessionConsistent()
      ensures DistinctKeys(old(modalSelectedFreeAddons), AddonId) ==>
                DistinctKeys(modalSelectedFreeAddons, AddonId) &&
                (IsFreeAddonSelected(addon.id) <==> !old(IsFreeAddonSelected(addon.id)))
    {
      if DistinctKeys(modalSelectedFreeAddons, AddonId) {
        ToggleFlips(modalSelectedFreeAddons, addon, AddonId);
      }
      modalSelectedFreeAddons := Toggle(modalSelectedFreeAddons, addon, AddonId);
      CalculateTotal();
    }

    /** `togglePremiumAddon(addon)`: flip the add-on in the paid selection and reprice. */
    method TogglePremiumAddon(addon: Addon)
      requires selectedFood.Some?
      modifies this`modalSelectedPremiumAddons, this`modalTotal
      ensures modalSelectedPremiumAddons == Toggle(old(modalSelectedPremiumAddons), addon, AddonId)
      ensures modalTotal == selectedFood.value.basePrice + PriceSum(modalSelectedPremiumAddons)
      ensures SessionConsistent()
      ensures DistinctKeys(old(modalSelectedPremiumAddons), AddonId) ==>
                DistinctKeys(modalSelectedPremiumAddons, AddonId) &&
                (IsPremiumAddonSelected(addon.id) <==> !old(IsPremiumAddonSelected(addon.id)))
      ensures !old(IsPremiumAddonSelected(addon.id)) ==>
                modalTotal == selectedFood.value.basePrice + old(PriceSum(modalSelectedPremiumAddons)) + addon.price
    {
      if DistinctKeys(modalSelectedPremiumAddons, AddonId) {
        ToggleFlips(modalSelectedPremiumAddons, addon, AddonId);
      }
      PriceSumToggle(modalSelectedPremiumAddons, addon);
      modalSelectedPremiumAddons := Toggle(modalSelectedPremiumAddons, addon, AddonId);
      CalculateTotal();
    }

    /** `confirmAddToCart()`: one cart line of quantity 1 priced at the dialog total, carrying the free then the paid selection; then the dialog closes. */
    method ConfirmAddToCart()
      requires selectedFood.Some?
      modifies this`showAddonModal, this`modalSelectedFreeAddons, this`modalSelectedPremiumAddons, cart
      ensures cart.lines == old(cart.lines) + [CartLine(
                selectedFood.value.id, selectedFood.value.name, selectedFood.value.basePrice,
                old(modalSelectedFreeAddons) + old(modalSelectedPremiumAddons), 1, modalTotal)]
      ensures old(SessionConsistent()) && old(showAddonModal) ==>
                modalTotal == selectedFood.value.basePrice + PriceSum(old(modalSelectedPremiumAddons))
      ensures !showAddonModal && modalSelectedFreeAddons == [] && modalSelectedPremiumAddons == []
      ensures SessionConsistent()
    {
      var allSelectedAddons := modalSelectedFreeAddons + modalSelectedPremiumAddons;
      var food := selectedFood.value;
      cart.AddToCart(CartLine(food.id, food.name, food.basePrice, allSelectedAddons, 1, modalTotal));
      CloseAddonPopup();
    }
  }
}
