/**
 * The administrator's dashboard page: it seeds the admin menu store with the full
 * catalogue on first use, lists the stored items, adds and deletes items through the
 * store, labels categories, and summarises two fixed five-day charts.
 */
module AdminDashboardPage {
  import opened Wrappers
  import opened Food
  import opened MenuAdmin
  import opened MenuSeed

  /** One bar or point of a dashboard chart. */
  datatype ChartPoint = ChartPoint(day: string, value: int)

  /** An integer extended below by JavaScript's `-Infinity`, which `Math.max()` of nothing gives. */
  datatype Extended = NegInfinity | Finite(n: int)

  /** The orders-per-day bar chart the dashboard is built with. */
  const DefaultOrdersChart: seq<ChartPoint> := [
    ChartPoint("Mon", 12), ChartPoint("Tue", 18), ChartPoint("Wed", 9),
    ChartPoint("Thu", 15), ChartPoint("Fri", 21)
  ]

  /** The revenue-per-day line chart the dashboard is built with. */
  const DefaultRevenueChart: seq<ChartPoint> := [
    ChartPoint("Mon", 8200), ChartPoint("Tue", 9100), ChartPoint("Wed", 7600),
    ChartPoint("Thu", 10400), ChartPoint("Fri", 11980)
  ]

  /** The empty add-item form: no name, the stock subtitle, price 0, vegetarian, category `'snacks'`, no image and no add-ons. */
  const DefaultDraft: MenuItemDraft :=
    MenuItemDraft(name := "", subtitle := "Delicious \U{2022} Fresh \U{2022} Flavorful", basePrice := 0,
                  foodType := Veg, image := "", category := "snacks", defaultAddons := [], extraAddons := [])

  /** The empty form's fields, one by one; an item saved from it lands in the snacks category. */
  lemma DefaultDraftFields()
    ensures DefaultDraft.name == "" && DefaultDraft.basePrice == 0 && DefaultDraft.foodType == Veg
    ensures DefaultDraft.subtitle == "Delicious \U{2022} Fresh \U{2022} Flavorful"
    ensures DefaultDraft.category == "snacks" && DefaultDraft.image == ""
    ensures DefaultDraft.defaultAddons == [] && DefaultDraft.extraAddons == []
    ensures IsFoodCategory(DefaultDraft.category)
  {
  }

  /** The label shown for each known category id. */
  const CategoryLabels: map<string, string> := map[
    "snacks" := "Snacks",
    "starters" := "Starters",
    "sandwiches" := "Sandwiches",
    "noodles" := "Noodles & Maggi",
    "pizzas" := "Pizzas",
    "pasta" := "Pasta",
    "burgers" := "Burgers",
    "gravy" := "Gravy Items",
    "roti" := "Roti & Rice",
    "thali" := "Thali",
    "beverages" := "Beverages",
    "sweets" := "Sweets & Bakery",
    "healthy" := "Healthy Food",
    "bakery" := "Bakery"
  ]

  /** `getCategoryDisplayName(id)`: `categoryMap[id] || id`; every label is non-empty, so a known id gets its label. */
  function CategoryDisplayName(id: string): (r: string)
    ensures |r| > 0 || id == ""
  {
    if id in CategoryLabels && CategoryLabels[id] != "" then CategoryLabels[id] else id
  }

  /** The labelled ids are exactly the fourteen food categories. */
  lemma CategoryLabelsCoverFood()
    ensures CategoryLabels.Keys == set c | c in FoodCategories
  {
  }

  /** A food category is shown under its label, which differs from the id; any other id is shown as it is. */
  lemma CategoryDisplayNameSpec(id: string)
    ensures IsFoodCategory(id) ==> CategoryDisplayName(id) == CategoryLabels[id] && CategoryDisplayName(id) != id
    ensures !IsFoodCategory(id) ==> CategoryDisplayName(id) == id
  {
    CategoryLabelsCoverFood();
    assert id in CategoryLabels <==> IsFoodCategory(id);
  }

  /** `chart.reduce((sum, p) => sum + p.value, 0)`, folding from the left. */
  function SumValues(chart: seq<ChartPoint>): (r: int)
    ensures chart == [] ==> r == 0
    ensures (forall i :: 0 <= i < |chart| ==> chart[i].value >= 0) ==> r >= 0
  {
    if chart == [] then 0 else SumValues(chart[..|chart| - 1]) + chart[|chart| - 1].value
  }

  /** Summing two charts one after the other is adding their sums. */
  lemma {:induction false} SumValuesConcat(a: seq<ChartPoint>, b: seq<ChartPoint>)
    ensures SumValues(a + b) == SumValues(a) + SumValues(b)
    decreases |b|
  {
    if b == [] {
      assert a + b == a;
    } else {
      SumValuesConcat(a, b[..|b| - 1]);
      assert (a + b)[..|a + b| - 1] == a + b[..|b| - 1];
    }
  }

  /** `chart.map(p => p.value)`. */
  function Values(chart: seq<ChartPoint>): (r: seq<int>)
    ensures |r| == |chart| && forall i :: 0 <= i < |chart| ==> r[i] == chart[i].value
  {
    seq(|chart|, i requires 0 <= i < |chart| => chart[i].value)
  }

  /** `Math.max(...chart.map(p => p.value))`. */
  function MaxValue(chart: seq<ChartPoint>): (r: Extended)
    ensures r.NegInfinity? <==> chart == []
    ensures r.Finite? ==> forall i :: 0 <= i < |chart| ==> chart[i].value <= r.n
    ensures r.Finite? ==> r.n in Values(chart)
  {
    if chart == [] then NegInfinity
    else
      match MaxValue(chart[1..])
      case NegInfinity =>
        assert Values(chart)[0] == chart[0].value;
        Finite(chart[0].value)
      case Finite(m) =>
        assert forall i :: 1 <= i < |chart| ==> chart[i] == chart[1..][i - 1];
        assert Values(chart) == [chart[0].value] + Values(chart[1..]);
        if chart[0].value >= m then Finite(chart[0].value) else Finite(m)
  }

  /** The given orders chart sums to 75 and peaks at 21. */
  lemma DefaultOrdersSummary()
    ensures SumValues(DefaultOrdersChart) == 75
    ensures MaxValue(DefaultOrdersChart) == Finite(21)
  {
    var c := DefaultOrdersChart;
    assert c[..1][..0] == [];
    assert SumValues(c[..1]) == 12;
    assert c[..2][..1] == c[..1];
    assert SumValues(c[..2]) == 30;
    assert c[..3][..2] == c[..2];
    assert SumValues(c[..3]) == 39;
    assert c[..4][..3] == c[..3];
    assert SumValues(c[..4]) == 54;
    assert c[..4] == c[..|c| - 1];
  }

  /** The given revenue chart peaks at 11980. */
  lemma DefaultRevenueSummary()
    ensures MaxValue(DefaultRevenueChart) == Finite(11980)
  {
  }

  /** The `AdminDashboard` page component. */
  class AdminDashboard {
    const menuService: MenuAdminService
    var isSidebarOpen: bool
    var items: seq<AdminMenuItem>
    var showMenuForm: bool
    var newItem: MenuItemDraft
    var ordersChart: seq<ChartPoint>
    var revenueChart: seq<ChartPoint>

    /**
     * Seed the store with the full catalogue when it is empty, list what is stored, and open the
     * sidebar on a screen at least 1024 pixels wide (`window.innerWidth`, here `innerWidth`).
     */
    constructor(menuService: MenuAdminService, innerWidth: int)
      modifies menuService
      ensures this.menuService == menuService
      ensures menuService.isBrowser == old(menuService.isBrowser)
      ensures menuService.stored ==
                if menuService.isBrowser && |old(menuService.GetAll())| == 0 then Some(AllMenuItemsFromPdf())
                else old(menuService.stored)
      ensures items == menuService.GetAll()
      ensures menuService.isBrowser ==> |items| > 0
      ensures isSidebarOpen == (innerWidth >= 1024)
      ensures !showMenuForm && newItem == DefaultDraft
      ensures newItem.name == "" && newItem.basePrice == 0 && newItem.category == "snacks" && newItem.image == ""
      ensures ordersChart == DefaultOrdersChart && revenueChart == DefaultRevenueChart
    {
      this.menuService := menuService;
      isSidebarOpen := false;
      items := [];
      showMenuForm := false;
      newItem := DefaultDraft;
      ordersChart := DefaultOrdersChart;
      revenueChart := DefaultRevenueChart;
      new;
      menuService.SeedIfEmpty(AllMenuItemsFromPdf());
      LoadItems();
      isSidebarOpen := innerWidth >= 1024;
    }

    /** `toggleSidebar()`: flip the sidebar, so two calls restore it. */
    method ToggleSidebar()
      modifies this`isSidebarOpen
      ensures isSidebarOpen == !old(isSidebarOpen)
    {
      isSidebarOpen := !isSidebarOpen;
    }

    /** `loadItems()`: list what the store holds. */
    method LoadItems()
      modifies this`items
      ensures items == menuService.GetAll()
    {
      items := menuService.GetAll();
    }

    /**
     * `addItem()`: a form without a name or with a price of 0 or less is ignored. Otherwise the
     * form is added to the store under the clock's id `now`, the list is reloaded, and the form is
     * reset and closed.
     */
    method AddItem(now: int)
      modifies this`items, this`newItem, this`showMenuForm, menuService
      ensures old(newItem.name) == "" || old(newItem.basePrice) <= 0 ==>
                unchanged(this) && unchanged(menuService)
      ensures old(newItem.name) != "" && old(newItem.basePrice) > 0 ==>
                menuService.isBrowser == old(menuService.isBrowser) &&
                menuService.stored ==
                  (if menuService.isBrowser then Some(old(menuService.GetAll()) + [old(newItem).WithId(now)])
                   else old(menuService.stored)) &&
                items == menuService.GetAll() &&
                newItem == DefaultDraft && !showMenuForm
      ensures old(newItem.name) != "" && old(newItem.basePrice) > 0 && menuService.isBrowser ==>
                |items| == |old(menuService.GetAll())| + 1 && items[|items| - 1] == old(newItem).WithId(now)
    {
      if newItem.name == "" || newItem.basePrice <= 0 {
        return;
      }
      menuService.Add(newItem, now);
      LoadItems();
      newItem := DefaultDraft;
      showMenuForm := false;
    }

    /** `deleteItem(id)`: when the user confirms (`confirm()`, here `confirmed`), delete from the store and reload. */
    method DeleteItem(id: int, confirmed: bool)
      modifies this`items, menuService
      ensures !confirmed ==> unchanged(this) && unchanged(menuService)
      ensures confirmed ==>
                menuService.isBrowser == old(menuService.isBrowser) &&
                menuService.stored ==
                  (if menuService.isBrowser then Some(Removed(old(menuService.GetAll()), id))
                   else old(menuService.stored)) &&
                items == menuService.GetAll() &&
                forall i :: 0 <= i < |items| ==> items[i].id != id
    {
      if confirmed {
        menuService.Delete(id);
        LoadItems();
        forall i | 0 <= i < |items| ensures items[i].id != id {
          assert ItemId(items[i]) == items[i].id;
        }
      }
    }

    /** `maxOrders`, computed from the orders chart, which nothing changes after construction. */
    function MaxOrders(): (r: Extended)
      reads this
      ensures ordersChart == DefaultOrdersChart ==> r == Finite(21)
      ensures r.Finite? ==> forall i :: 0 <= i < |ordersChart| ==> ordersChart[i].value <= r.n
    {
      DefaultOrdersSummary();
      MaxValue(ordersChart)
    }

    /** `maxRevenue`, computed from the revenue chart, which nothing changes after construction. */
    function MaxRevenue(): (r: Extended)
      reads this
      ensures revenueChart == DefaultRevenueChart ==> r == Finite(11980)
      ensures r.Finite? ==> forall i :: 0 <= i < |revenueChart| ==> revenueChart[i].value <= r.n
    {
      DefaultRevenueSummary();
      MaxValue(revenueChart)
    }

    /** `ordersLast5Days`: the sum of the orders chart, 75 for the chart the page is built with. */
    function OrdersLast5Days(): (r: int)
      reads this
      ensures ordersChart == DefaultOrdersChart ==> r == 75
      ensures (forall i :: 0 <= i < |ordersChart| ==> ordersChart[i].value >= 0) ==> r >= 0
    {
      DefaultOrdersSummary();
      SumValues(ordersChart)
    }
  }

  /** On a dashboard showing the given charts, `ordersLast5Days` is 75, `maxOrders` is 21 and `maxRevenue` is 11980. */
  lemma DashboardFigures(d: AdminDashboard)
    requires d.ordersChart == DefaultOrdersChart && d.revenueChart == DefaultRevenueChart
    ensures d.OrdersLast5Days() == 75
    ensures d.MaxOrders() == Finite(21) && d.MaxRevenue() == Finite(11980)
  {
    DefaultOrdersSummary();
    DefaultRevenueSummary();
  }
}
